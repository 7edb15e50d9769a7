/** Whole runs of opens and appends, each stopped anywhere, over one ledger directory and its anchor. */
module AppendRuns {
  import opened Prelude
  import opened LedgerEvents
  import opened LedgerReplay
  import opened HashChain
  import opened DurableStore
  import opened CrashProtocol

  lemma EventsOfSnoc(records: seq<Record>, r: Record)
    ensures EventsOf(records + [r]) == EventsOf(records) + [r.event]
  {
  }

  /** A directory at rest opens, and shows exactly its records. */
  lemma AtRestOpens(codec: Codec, w: World, records: seq<Record>)
    requires AtRest(codec, w, records)
    ensures OpenUnlocked(codec, w)
         == Ok(Opened(records, Replay(EventsOf(records)).value, w.anchor, |Payload(w)|))
  {
    hide Replay, Load;
  }

  /** Creating the empty journal file of a ledger without records leaves it at rest. */
  lemma CreatedAtRest(codec: Codec, w: World, records: seq<Record>)
    requires AtRest(codec, w, records) && w.disk.journal.None?
    ensures AtRest(codec, Perform(w, SetJournal([])), records)
  {
    hide Replay, Load;
  }

  /** Open recovers, always succeeds, and returns the records that count; stopping it changes nothing that counts. */
  lemma OpenSafe(codec: Codec, w: World, done: nat, torn: nat)
    requires Faithful(codec) && Consistent(codec, w)
    ensures var plan := OpenPlan(codec, w);
            && plan.outcome.Ok? && plan.outcome.value.records == Committed(codec, w)
            && AtRest(codec, PerformAll(w, plan.writes), Committed(codec, w))
            && OpenUnlocked(codec, PerformAll(w, plan.writes)) == plan.outcome
            && var cut := Interrupted(w, plan.writes, done, torn);
               cut.anchor == w.anchor && Consistent(codec, cut) && Committed(codec, cut) == Committed(codec, w)
  {
    hide RecoverPlan, Consistent, Committed, AtRest, OpenUnlocked, Interrupted, PerformAll;
    var recovery := RecoverPlan(codec, w);
    RecoverySafe(codec, w, done, torn);
    RecoverySafe(codec, w, |recovery.writes|, torn);
    InterruptedAtEnd(w, recovery.writes, |recovery.writes|, torn);
    var recovered := PerformAll(w, recovery.writes);
    var create: seq<Write> := if recovered.disk.journal.None? then [SetJournal([])] else [];
    var records := Committed(codec, w);
    CreateSafe(codec, recovered, create, records,
               if done >= |recovery.writes| then done - |recovery.writes| else 0, torn);
    PerformConcat(w, recovery.writes, create);
    InterruptedConcat(w, recovery.writes, create, done, torn);
  }

  lemma CreateSafe(codec: Codec, w: World, create: seq<Write>, records: seq<Record>, done: nat, torn: nat)
    requires AtRest(codec, w, records)
    requires create == if w.disk.journal.None? then [SetJournal([])] else []
    ensures var made := PerformAll(w, create);
            && AtRest(codec, made, records)
            && OpenUnlocked(codec, made).Ok? && OpenUnlocked(codec, made).value.records == records
    ensures var cut := Interrupted(w, create, done, torn);
            cut.anchor == w.anchor && Consistent(codec, cut) && Committed(codec, cut) == records
  {
    if w.disk.journal.None? {
      CreatedAtRest(codec, w, records);
      AtRestOpens(codec, Perform(w, SetJournal([])), records);
      AtRestIsConsistent(codec, Perform(w, SetJournal([])), records);
    }
    AtRestOpens(codec, w, records);
    AtRestIsConsistent(codec, w, records);
    hide AtRest, Consistent, Committed, OpenUnlocked, Replay, Load;
    assert create == [] || create[1..] == [];
  }

  /** The intent of an append that replays is a proper one, and its line extends the journal. */
  lemma IntentIsProper(codec: Codec, w: World, records: seq<Record>, event: Event)
    requires Faithful(codec) && AtRest(codec, w, records)
    requires Replay(EventsOf(records) + [event]).Ok?
    ensures OpenUnlocked(codec, w).Ok?
    ensures var p := IntentOf(OpenUnlocked(codec, w).value, event, Replay(EventsOf(records) + [event]).value);
            && p.record == NextRecord(records, event)
            && IntentFor(codec, p, Payload(w), records)
            && Load(codec, Payload(w) + Line(codec, p.record)) == Ok(records + [p.record])
            && w.anchor == AnchorFor(records) && AnchorFor(records + [p.record]) == Some(AnchorOf(p.snapshot))
            && SnapshotFor(records + [p.record]) == Ok(p.snapshot)
  {
    hide Replay, Load, Line, OpenUnlocked;
    AtRestOpens(codec, w, records);
    var r := NextRecord(records, event);
    EventsOfSnoc(records, r);
    LoadExtended(codec, Payload(w), r);
  }

  /** The five durable steps of an append, stopped after any of them or inside the journal line. */
  lemma CommitSafe(codec: Codec, w: World, base: seq<byte>, records: seq<Record>, p: Pending, done: nat, torn: nat)
    requires AtRest(codec, w, records) && w.anchor == AnchorFor(records)
    requires Payload(w) == base && IntentFor(codec, p, base, records)
    requires AnchorFor(records + [p.record]) == Some(AnchorOf(p.snapshot))
    requires SnapshotFor(records + [p.record]) == Ok(p.snapshot)
    requires Load(codec, base + Line(codec, p.record)) == Ok(records + [p.record])
    ensures var cut, all := Interrupted(w, CommitWrites(codec, p), done, torn), records + [p.record];
            && (if done < 2 then cut.anchor == w.anchor && Stage(codec, cut, records)
                else cut.anchor == AnchorFor(all) && Stage(codec, cut, all))
            && (done >= 5 ==> AtRest(codec, cut, all))
  {
    hide Stage, Load, AtRest, IntentFor, SnapshotFor, AnchorFor, Line, Replay, Interrupted;
    var all, a, line := records + [p.record], AnchorOf(p.snapshot), Line(codec, p.record);
    var cut := Interrupted(w, CommitWrites(codec, p), done, torn);
    AtRestStage(codec, w, records);
    CutFive(w, SetPending(p), MoveAnchor(a), line, SetSnapshot(p.snapshot), ClearPending, done, torn);
    assert base + [] == base;
    if done >= 5 {
      var before := Perform(Perform(Perform(Perform(w, SetPending(p)), MoveAnchor(a)), AppendJournal(line)),
                            SetSnapshot(p.snapshot));
      ClearedIsAtRest(codec, before, all);
      AtRestStage(codec, cut, all);
    } else if done >= 1 {
      FlightStage(codec, cut, base, records, p,
                  if done >= 3 then line else if done == 2 && torn <= |line| then line[..torn] else []);
    }
  }

  /** The writes of an append, cut anywhere. */
  lemma CutFive(w: World, a: Write, b: Write, line: seq<byte>, d: Write, e: Write, done: nat, torn: nat)
    requires !a.AppendJournal? && !b.AppendJournal? && !d.AppendJournal? && !e.AppendJournal?
    ensures var w2 := Perform(Perform(w, a), b);
            var w3 := Perform(w2, AppendJournal(line));
            Interrupted(w, [a, b, AppendJournal(line), d, e], done, torn)
            == (if done == 0 then w
                else if done == 1 then Perform(w, a)
                else if done == 2 then
                  if torn <= |line| then Perform(w2, AppendJournal(line[..torn])) else w2
                else if done == 3 then w3
                else if done == 4 then Perform(w3, d)
                else Perform(Perform(w3, d), e))
  {
    var c := AppendJournal(line);
    assert [a, b, c, d, e][1..] == [b, c, d, e];
    assert [b, c, d, e][1..] == [c, d, e];
    assert [c, d, e][1..] == [d, e];
    var w1 := Perform(w, a);
    var w2 := Perform(w1, b);
    if done >= 1 {
      assert Interrupted(w, [a, b, c, d, e], done, torn) == Interrupted(w1, [b, c, d, e], done - 1, torn);
    }
    if done >= 2 {
      assert Interrupted(w1, [b, c, d, e], done - 1, torn) == Interrupted(w2, [c, d, e], done - 2, torn);
    }
    if done >= 3 {
      assert Interrupted(w2, [c, d, e], done - 2, torn) == Interrupted(Perform(w2, c), [d, e], done - 3, torn);
      CutTwo(Perform(w2, c), d, e, done - 3, torn);
    }
  }

  /** A consistent world in which exactly these records count. */
  ghost predicate Stage(codec: Codec, w: World, records: seq<Record>) {
    Consistent(codec, w) && Committed(codec, w) == records
  }

  lemma AtRestStage(codec: Codec, w: World, records: seq<Record>)
    requires AtRest(codec, w, records)
    ensures Stage(codec, w, records)
  {
    AtRestIsConsistent(codec, w, records);
  }

  lemma FlightStage(codec: Codec, w: World, base: seq<byte>, prior: seq<Record>, p: Pending, tail: seq<byte>)
    requires w.disk.pending == Some(p) && IntentFor(codec, p, base, prior)
    requires Payload(w) == base + tail && tail <= Line(codec, p.record)
    requires w.anchor == AnchorFor(prior) || w.anchor == AnchorFor(prior + [p.record])
    ensures w.anchor == AnchorFor(prior) ==> Stage(codec, w, prior)
    ensures w.anchor == AnchorFor(prior + [p.record]) ==> Stage(codec, w, prior + [p.record])
  {
    assert Payload(w)[|base|..] == tail;
    InFlightIsConsistent(codec, w, base, prior);
  }

  /** What one append, stopped anywhere, may have done to the records that count. */
  ghost predicate AtomicAppend(codec: Codec, before: World, after: World, event: Event) {
    && Consistent(codec, after)
    && (if after.anchor == before.anchor then Committed(codec, after) == Committed(codec, before)
        else Committed(codec, after) == Committed(codec, before) + [NextRecord(Committed(codec, before), event)]
             && after.anchor == AnchorFor(Committed(codec, after)))
  }

  /** An append writes nothing, or what opening writes, or that and the five durable steps. */
  lemma AppendShape(codec: Codec, w: World, event: Event)
    requires OpenPlan(codec, w).outcome.Ok?
    ensures var writes, open := AppendPlan(codec, w, event).writes, OpenPlan(codec, w);
            var events := EventsOf(open.outcome.value.records);
            || writes == []
            || writes == open.writes
            || (Replay(events + [event]).Ok?
                && writes == open.writes
                             + CommitWrites(codec, IntentOf(open.outcome.value, event, Replay(events + [event]).value)))
  {
    hide OpenPlan, Replay, FindRepeat, ValidateEvent, CommitWrites, IntentOf;
  }

  /**
   * Append is crash-atomic: stopped after any durable write, or with any part of
   * its line in the journal, it has added its one record if the anchor moved and
   * nothing if it did not.
   */
  lemma AppendIsCrashAtomic(codec: Codec, w: World, event: Event, done: nat, torn: nat)
    requires Faithful(codec) && Consistent(codec, w)
    ensures AtomicAppend(codec, w, Interrupted(w, AppendPlan(codec, w, event).writes, done, torn), event)
  {
    var writes, open := AppendPlan(codec, w, event).writes, OpenPlan(codec, w);
    OpenSafe(codec, w, done, torn);
    AppendShape(codec, w, event);
    hide Consistent, Committed, OpenPlan, OpenUnlocked, AtRest, Replay, AppendPlan, CommitWrites, IntentOf, EventsOf,
         PerformAll, NextRecord, AnchorFor;
    if writes != [] && writes != open.writes {
      hide Interrupted, AtomicAppend;
      CommitBehindOpen(codec, w, event, done, torn);
    }
  }

  /** The case in which the append goes on to commit. */
  lemma CommitBehindOpen(codec: Codec, w: World, event: Event, done: nat, torn: nat)
    requires Faithful(codec) && Consistent(codec, w)
    requires OpenPlan(codec, w).outcome.Ok?
    requires var o := OpenPlan(codec, w).outcome.value; Replay(EventsOf(o.records) + [event]).Ok?
    ensures var open := OpenPlan(codec, w);
            var o := open.outcome.value;
            var p := IntentOf(o, event, Replay(EventsOf(o.records) + [event]).value);
            AtomicAppend(codec, w, Interrupted(w, open.writes + CommitWrites(codec, p), done, torn), event)
  {
    hide *;
    var open := OpenPlan(codec, w);
    var records := open.outcome.value.records;
    var p := IntentOf(open.outcome.value, event, Replay(EventsOf(records) + [event]).value);
    var cut := Interrupted(w, open.writes + CommitWrites(codec, p), done, torn);
    InterruptedConcat(w, open.writes, CommitWrites(codec, p), done, torn);
    if done < |open.writes| {
      OpenSafe(codec, w, done, torn);
      UnmovedIsAtomic(codec, w, cut, event);
    } else {
      OpenSafe(codec, w, |open.writes|, torn);
      InterruptedAtEnd(w, open.writes, |open.writes|, torn);
      CommitOnOpened(codec, PerformAll(w, open.writes), records, event, done - |open.writes|, torn);
      StagedIsAtomic(codec, w, cut, event);
    }
  }

  lemma UnmovedIsAtomic(codec: Codec, w: World, cut: World, event: Event)
    requires Consistent(codec, cut) && cut.anchor == w.anchor && Committed(codec, cut) == Committed(codec, w)
    ensures AtomicAppend(codec, w, cut, event)
  {
    hide Consistent, Committed;
  }

  lemma StagedIsAtomic(codec: Codec, w: World, cut: World, event: Event)
    requires var records := Committed(codec, w);
             var all := records + [NextRecord(records, event)];
             || (cut.anchor == w.anchor && Stage(codec, cut, records))
             || (cut.anchor == AnchorFor(all) != w.anchor && Stage(codec, cut, all))
    ensures AtomicAppend(codec, w, cut, event)
  {
    hide Consistent, Committed, NextRecord, AnchorFor;
  }

  lemma CommitOnOpened(codec: Codec, w: World, records: seq<Record>, event: Event, done: nat, torn: nat)
    requires Faithful(codec) && AtRest(codec, w, records)
    requires OpenUnlocked(codec, w).Ok?
    requires Replay(EventsOf(records) + [event]).Ok?
    ensures var p := IntentOf(OpenUnlocked(codec, w).value, event, Replay(EventsOf(records) + [event]).value);
            var cut, all := Interrupted(w, CommitWrites(codec, p), done, torn), records + [NextRecord(records, event)];
            && (if done < 2 then cut.anchor == w.anchor && Stage(codec, cut, records)
                else cut.anchor == AnchorFor(all) != w.anchor && Stage(codec, cut, all))
            && (done >= 5 ==> AtRest(codec, cut, all))
  {
    var p := IntentOf(OpenUnlocked(codec, w).value, event, Replay(EventsOf(records) + [event]).value);
    IntentIsProper(codec, w, records, event);
    AnchorsDiffer(records, p.record);
    hide Load, AtRest, IntentFor, SnapshotFor, AnchorFor, Line, Replay, Interrupted, CommitWrites, IntentOf,
         OpenUnlocked, Stage;
    CommitSafe(codec, w, Payload(w), records, p, done, torn);
  }

  /** Where recovery is stopped: after how many writes. */
  type Cut = (nat, nat)

  /** The world after recovery was started and stopped once for every cut. */
  ghost function Recoveries(codec: Codec, w: World, cuts: seq<Cut>): World {
    if cuts == [] then w
    else
      var before := Recoveries(codec, w, cuts[..|cuts| - 1]);
      var cut := cuts[|cuts| - 1];
      Interrupted(before, RecoverPlan(codec, before).writes, cut.0, cut.1)
  }

  lemma {:induction false} RecoveriesSafe(codec: Codec, w: World, cuts: seq<Cut>)
    requires Faithful(codec) && Consistent(codec, w)
    ensures var after := Recoveries(codec, w, cuts);
            after.anchor == w.anchor && Consistent(codec, after) && Committed(codec, after) == Committed(codec, w)
  {
    hide Consistent, Committed, RecoverPlan, Interrupted;
    if cuts != [] {
      var front, cut := cuts[..|cuts| - 1], cuts[|cuts| - 1];
      RecoveriesSafe(codec, w, front);
      RecoverySafe(codec, Recoveries(codec, w, front), cut.0, cut.1);
    }
  }

  /**
   * The next open after an append stopped anywhere, and after any number of
   * recoveries stopped anywhere, succeeds. It returns the old records if the
   * anchor had not moved, and the old records with the new one behind them if
   * it had.
   */
  lemma NextOpenDecides(codec: Codec, w: World, event: Event, done: nat, torn: nat, cuts: seq<Cut>)
    requires Faithful(codec) && Consistent(codec, w)
    ensures var cut := Interrupted(w, AppendPlan(codec, w, event).writes, done, torn);
            var open := OpenPlan(codec, Recoveries(codec, cut, cuts)).outcome;
            var prior := Committed(codec, w);
            && open.Ok?
            && open.value.records == (if cut.anchor == w.anchor then prior else prior + [NextRecord(prior, event)])
  {
    var cut := Interrupted(w, AppendPlan(codec, w, event).writes, done, torn);
    AppendIsCrashAtomic(codec, w, event, done, torn);
    hide Consistent, Committed, AppendPlan, OpenPlan, Interrupted, Recoveries;
    RecoveriesSafe(codec, cut, cuts);
    OpenSafe(codec, Recoveries(codec, cut, cuts), 0, 0);
  }

  /** An empty directory whose anchor was never set. */
  const NEW_LEDGER: World := World(Disk(None, None, None, None, false), None)

  /** Every run may start from nothing. */
  lemma NewLedgerIsConsistent(codec: Codec)
    ensures Consistent(codec, NEW_LEDGER) && Committed(codec, NEW_LEDGER) == []
  {
    assert Load(codec, Payload(NEW_LEDGER)) == Ok([]);
    assert EventsOf([]) == [] && Fold([]).Ok?;
  }

  /** One process: it opens the ledger, or appends an event, and is stopped somewhere. */
  datatype Attempt = Open(done: nat, torn: nat) | Append(event: Event, done: nat, torn: nat)

  ghost function Writes(codec: Codec, w: World, a: Attempt): seq<Write> {
    match a
    case Open(_, _) => OpenPlan(codec, w).writes
    case Append(event, _, _) => AppendPlan(codec, w, event).writes
  }

  /** The world after a run of processes, each stopped where it says. */
  ghost function Run(codec: Codec, w: World, attempts: seq<Attempt>): World {
    if attempts == [] then w
    else
      var before := Run(codec, w, attempts[..|attempts| - 1]);
      var a := attempts[|attempts| - 1];
      Interrupted(before, Writes(codec, before, a), a.done, a.torn)
  }

  ghost predicate Attempted(attempts: seq<Attempt>, event: Event) {
    exists a :: a in attempts && a.Append? && a.event == event
  }

  /** History only grows, each time by one record of an attempted event. */
  ghost predicate Grows(first: seq<Record>, now: seq<Record>, attempts: seq<Attempt>) {
    && first <= now
    && forall i | |first| <= i < |now| ::
         now[i] == NextRecord(now[..i], now[i].event) && Attempted(attempts, now[i].event)
  }

  lemma StillAttempted(attempts: seq<Attempt>, a: Attempt, event: Event)
    ensures Attempted(attempts, event) ==> Attempted(attempts + [a], event)
    ensures a.Append? ==> Attempted(attempts + [a], a.event)
  {
    assert forall b :: b in attempts ==> b in attempts + [a];
    assert a in attempts + [a];
  }

  lemma GrowsByOne(first: seq<Record>, now: seq<Record>, attempts: seq<Attempt>, a: Attempt)
    requires Grows(first, now, attempts) && a.Append?
    ensures Grows(first, now + [NextRecord(now, a.event)], attempts + [a])
  {
    var next := now + [NextRecord(now, a.event)];
    hide Attempted;
    forall i | |first| <= i < |next|
      ensures next[i] == NextRecord(next[..i], next[i].event) && Attempted(attempts + [a], next[i].event)
    {
      StillAttempted(attempts, a, next[i].event);
      assert next[..i] == if i < |now| then now[..i] else now;
    }
  }

  lemma GrowsByNone(first: seq<Record>, now: seq<Record>, attempts: seq<Attempt>, a: Attempt)
    requires Grows(first, now, attempts)
    ensures Grows(first, now, attempts + [a])
  {
    hide Attempted, NextRecord;
    forall i | |first| <= i < |now|
      ensures now[i] == NextRecord(now[..i], now[i].event) && Attempted(attempts + [a], now[i].event)
    {
      StillAttempted(attempts, a, now[i].event);
    }
  }

  /**
   * Over every run of opens and appends stopped anywhere, committed history is
   * never lost, reordered or rewritten, and it grows only by events that were
   * appended; every open that completes returns exactly that history.
   */
  lemma {:induction false} HistorySurvives(codec: Codec, w: World, attempts: seq<Attempt>)
    requires Faithful(codec) && Consistent(codec, w)
    ensures var after := Run(codec, w, attempts);
            && Consistent(codec, after)
            && Grows(Committed(codec, w), Committed(codec, after), attempts)
            && OpenPlan(codec, after).outcome.Ok?
            && OpenPlan(codec, after).outcome.value.records == Committed(codec, after)
  {
    hide Consistent, Committed, OpenPlan, AppendPlan, Interrupted, Grows;
    if attempts == [] {
      OpenSafe(codec, w, 0, 0);
      NothingGrows(Committed(codec, w));
    } else {
      var front, a := attempts[..|attempts| - 1], attempts[|attempts| - 1];
      var before := Run(codec, w, front);
      HistorySurvives(codec, w, front);
      assert attempts == front + [a];
      match a {
        case Open(done, torn) => OpenSafe(codec, before, done, torn);
        case Append(event, done, torn) =>
          AppendIsCrashAtomic(codec, before, event, done, torn);
          GrowsByOne(Committed(codec, w), Committed(codec, before), front, a);
      }
      GrowsByNone(Committed(codec, w), Committed(codec, before), front, a);
      OpenSafe(codec, Run(codec, w, attempts), 0, 0);
    }
  }

  lemma NothingGrows(records: seq<Record>)
    ensures Grows(records, records, [])
  {
  }
}
