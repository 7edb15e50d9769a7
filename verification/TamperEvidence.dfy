/**
 * What the protected anchor is worth when the directory is not trusted: between any
 * two processes somebody may replace all of its files. No premise on the codec and
 * none on the directory is needed here.
 */
module TamperEvidence {
  import opened Prelude
  import opened LedgerEvents
  import opened LedgerReplay
  import opened HashChain
  import opened DurableStore
  import opened CrashProtocol
  import opened AppendRuns

  ghost predicate NoAnchorMove(writes: seq<Write>) {
    forall x :: x in writes ==> !x.MoveAnchor?
  }

  lemma {:induction false} AnchorStays(w: World, writes: seq<Write>, done: nat, torn: nat)
    requires NoAnchorMove(writes)
    ensures Interrupted(w, writes, done, torn).anchor == w.anchor
    ensures PerformAll(w, writes).anchor == w.anchor
    decreases |writes|
  {
    if writes != [] {
      assert writes[0] in writes && forall x :: x in writes[1..] ==> x in writes;
      AnchorStays(Perform(w, writes[0]), writes[1..], if done > 0 then done - 1 else 0, torn);
    }
  }

  lemma RecoveryKeepsAnchor(codec: Codec, w: World)
    ensures NoAnchorMove(RecoverPlan(codec, w).writes)
  {
    hide Load, Line, SnapshotFor, ValidateSnapshot, WellFormedPending, AnchorFor;
  }

  lemma ReadIsAnchored(codec: Codec, w: World)
    requires OpenUnlocked(codec, w).Ok?
    ensures var o := OpenUnlocked(codec, w).value;
            && Chained(o.records) && AnchorFor(o.records) == w.anchor == o.anchor
            && Replay(EventsOf(o.records)) == Ok(o.state)
  {
    hide Replay, ValidateCurrentSnapshot;
    LoadedIsChained(codec, Payload(w), []);
    hide LoadFrom;
  }

  /**
   * Whatever the directory holds, opening it never moves the anchor, and an open
   * that succeeds shows a chain that the anchor vouches for and what it replays to.
   */
  lemma OpenIsAnchored(codec: Codec, w: World)
    ensures var plan := OpenPlan(codec, w);
            && NoAnchorMove(plan.writes)
            && (plan.outcome.Ok? ==>
                  var o := plan.outcome.value;
                  && Chained(o.records) && AnchorFor(o.records) == w.anchor == o.anchor
                  && Replay(EventsOf(o.records)) == Ok(o.state))
  {
    hide RecoverPlan, OpenUnlocked, Chained, AnchorFor, Replay;
    RecoveryKeepsAnchor(codec, w);
    var recovery := RecoverPlan(codec, w);
    var recovered := PerformAll(w, recovery.writes);
    var create: seq<Write> := if recovered.disk.journal.None? then [SetJournal([])] else [];
    AnchorStays(w, recovery.writes, 0, 0);
    AnchorStays(recovered, create, 0, 0);
    var made := PerformAll(recovered, create);
    if OpenUnlocked(codec, made).Ok? {
      ReadIsAnchored(codec, made);
    }
  }

  /** Two directories that open against one anchor show the same records and the same state. */
  lemma AnchorDeterminesOpen(codec: Codec, w: World, v: World)
    requires w.anchor == v.anchor
    requires OpenPlan(codec, w).outcome.Ok? && OpenPlan(codec, v).outcome.Ok?
    ensures var a, b := OpenPlan(codec, w).outcome.value, OpenPlan(codec, v).outcome.value;
            a.records == b.records && a.state == b.state
  {
    hide OpenPlan, Chained, Replay;
    OpenIsAnchored(codec, w);
    OpenIsAnchored(codec, v);
    HeadDeterminesChain(OpenPlan(codec, w).outcome.value.records, OpenPlan(codec, v).outcome.value.records);
  }

  /** What an append writes: the writes of the open, and behind an open that succeeded perhaps one commit. */
  lemma AppendShape(codec: Codec, w: World, event: Event)
    ensures var plan, open := AppendPlan(codec, w, event), OpenPlan(codec, w);
            || plan.writes == []
            || plan.writes == open.writes
            || (open.outcome.Ok?
                && exists p: Pending ::
                     plan.writes == open.writes + CommitWrites(codec, p)
                     && p.snapshot.count == |open.outcome.value.records| + 1
                     && p.snapshot.head == NextRecord(open.outcome.value.records, event).hash)
  {
    hide OpenPlan, ValidateEvent, FindRepeat, Replay, CommitWrites, NextRecord;
    var open := OpenPlan(codec, w);
    if open.outcome.Ok? && AppendPlan(codec, w, event).outcome == Ok(Appended) {
      var next := Replay(EventsOf(open.outcome.value.records) + [event]).value;
      var p := IntentOf(open.outcome.value, event, next);
      assert AppendPlan(codec, w, event).writes == open.writes + CommitWrites(codec, p);
    }
  }

  lemma CommitMovesOnce(codec: Codec, w: World, p: Pending, done: nat, torn: nat)
    ensures var cut := Interrupted(w, CommitWrites(codec, p), done, torn);
            cut.anchor == w.anchor || cut.anchor == Some(AnchorOf(p.snapshot))
  {
    hide Line;
    CutFive(w, SetPending(p), MoveAnchor(AnchorOf(p.snapshot)), Line(codec, p.record), SetSnapshot(p.snapshot),
            ClearPending, done, torn);
  }

  /** An append stopped anywhere in any directory leaves the anchor, or moves it on by the one record of its event. */
  lemma AppendMovesOn(codec: Codec, w: World, now: seq<Record>, event: Event, done: nat, torn: nat)
    requires Chained(now) && AnchorFor(now) == w.anchor
    ensures var cut := Interrupted(w, AppendPlan(codec, w, event).writes, done, torn);
            cut.anchor == w.anchor || cut.anchor == AnchorFor(now + [NextRecord(now, event)])
  {
    hide OpenPlan, AppendPlan, Chained, Replay, CommitWrites, NextRecord;
    var open, writes := OpenPlan(codec, w), AppendPlan(codec, w, event).writes;
    OpenIsAnchored(codec, w);
    AppendShape(codec, w, event);
    if writes == [] || writes == open.writes {
      AnchorStays(w, writes, done, torn);
    } else {
      var p: Pending :|
        writes == open.writes + CommitWrites(codec, p)
        && p.snapshot.count == |open.outcome.value.records| + 1
        && p.snapshot.head == NextRecord(open.outcome.value.records, event).hash;
      HeadDeterminesChain(open.outcome.value.records, now);
      AnchorStays(w, open.writes, done, torn);
      InterruptedConcat(w, open.writes, CommitWrites(codec, p), done, torn);
      if done >= |open.writes| {
        CommitMovesOnce(codec, PerformAll(w, open.writes), p, done - |open.writes|, torn);
      }
    }
  }

  /** One process of the ledger, stopped somewhere, or somebody putting any files into the directory. */
  datatype Deed = Process(attempt: Attempt) | Tamper(disk: Disk)

  ghost function Done(codec: Codec, w: World, deeds: seq<Deed>): World {
    if deeds == [] then w
    else
      var before := Done(codec, w, deeds[..|deeds| - 1]);
      match deeds[|deeds| - 1]
      case Tamper(disk) => before.(disk := disk)
      case Process(a) => Interrupted(before, Writes(codec, before, a), a.done, a.torn)
  }

  function AttemptsOf(deeds: seq<Deed>): seq<Attempt> {
    if deeds == [] then []
    else
      var front, last := AttemptsOf(deeds[..|deeds| - 1]), deeds[|deeds| - 1];
      if last.Process? then front + [last.attempt] else front
  }

  /** The one history the anchor vouches for, grown from the first one by attempted events. */
  ghost predicate IsHistory(now: seq<Record>, first: seq<Record>, w: World, attempts: seq<Attempt>) {
    Chained(now) && AnchorFor(now) == w.anchor && Grows(first, now, attempts)
  }

  lemma ProcessKeepsHistory(
    codec: Codec, w: World, now: seq<Record>, first: seq<Record>, attempts: seq<Attempt>, a: Attempt)
    requires IsHistory(now, first, w, attempts)
    ensures var cut := Interrupted(w, Writes(codec, w, a), a.done, a.torn);
            exists next :: IsHistory(next, first, cut, attempts + [a])
  {
    hide OpenPlan, AppendPlan, Chained, Grows, AnchorFor, NextRecord, Interrupted;
    var cut := Interrupted(w, Writes(codec, w, a), a.done, a.torn);
    GrowsByNone(first, now, attempts, a);
    match a {
      case Open(done, torn) =>
        OpenIsAnchored(codec, w);
        AnchorStays(w, OpenPlan(codec, w).writes, done, torn);
        assert IsHistory(now, first, cut, attempts + [a]);
      case Append(event, done, torn) =>
        AppendMovesOn(codec, w, now, event, done, torn);
        if cut.anchor == w.anchor {
          assert IsHistory(now, first, cut, attempts + [a]);
        } else {
          NextContinues(now, event);
          GrowsByOne(first, now, attempts, a);
          assert IsHistory(now + [NextRecord(now, event)], first, cut, attempts + [a]);
        }
    }
  }

  lemma NextContinues(records: seq<Record>, event: Event)
    requires Chained(records)
    ensures Chained(records + [NextRecord(records, event)])
  {
    ChainedSnoc(records, NextRecord(records, event));
  }

  /**
   * Over every run of opens and appends stopped anywhere, with the directory
   * replaced in between in any way and any number of times, the anchor vouches for
   * one history: the first one, grown only by the records of attempted events. An
   * open that succeeds shows exactly that history, so tampering can make the ledger
   * refuse to open and can never make it show anything else.
   */
  lemma {:induction false} TamperingShows(codec: Codec, w: World, first: seq<Record>, deeds: seq<Deed>)
    requires Chained(first) && AnchorFor(first) == w.anchor
    ensures var after := Done(codec, w, deeds);
            exists now ::
              && IsHistory(now, first, after, AttemptsOf(deeds))
              && (OpenPlan(codec, after).outcome.Ok? ==> OpenPlan(codec, after).outcome.value.records == now)
  {
    HistoryIsKept(codec, w, first, deeds);
    hide OpenPlan, Chained, Grows, Done, AttemptsOf, Replay;
    var after := Done(codec, w, deeds);
    var now :| IsHistory(now, first, after, AttemptsOf(deeds));
    OpenIsAnchored(codec, after);
    if OpenPlan(codec, after).outcome.Ok? {
      HeadDeterminesChain(OpenPlan(codec, after).outcome.value.records, now);
    }
  }

  lemma {:induction false} HistoryIsKept(codec: Codec, w: World, first: seq<Record>, deeds: seq<Deed>)
    requires Chained(first) && AnchorFor(first) == w.anchor
    ensures exists now :: IsHistory(now, first, Done(codec, w, deeds), AttemptsOf(deeds))
  {
    hide Chained, AnchorFor, Grows, Writes, Interrupted;
    if deeds == [] {
      NothingGrows(first);
      assert IsHistory(first, first, Done(codec, w, deeds), AttemptsOf(deeds));
    } else {
      var front, last := deeds[..|deeds| - 1], deeds[|deeds| - 1];
      HistoryIsKept(codec, w, first, front);
      var before := Done(codec, w, front);
      var now :| IsHistory(now, first, before, AttemptsOf(front));
      if last.Process? {
        var a := last.attempt;
        ProcessKeepsHistory(codec, before, now, first, AttemptsOf(front), a);
        var cut := Interrupted(before, Writes(codec, before, a), a.done, a.torn);
        var next :| IsHistory(next, first, cut, AttemptsOf(front) + [a]);
        assert IsHistory(next, first, Done(codec, w, deeds), AttemptsOf(deeds));
      } else {
        assert IsHistory(now, first, Done(codec, w, deeds), AttemptsOf(deeds));
      }
    }
  }

  /** A directory whose files are those of some records opens, and shows them. */
  lemma FilesOpen(codec: Codec, w: World, records: seq<Record>)
    requires Load(codec, Payload(w)) == Ok(records) && w.anchor == AnchorFor(records)
    requires Replay(EventsOf(records)).Ok?
    requires w.disk.snapshot == if records == [] then None else Some(SnapshotFor(records).value)
    ensures OpenUnlocked(codec, w).Ok? && OpenUnlocked(codec, w).value.records == records
  {
    hide Load, Replay, Head;
  }

  lemma RolledBackOpens(codec: Codec, w: World, base: seq<byte>, prior: seq<Record>, replace: bool)
    requires Load(codec, base) == Ok(prior) && w.anchor == AnchorFor(prior)
    requires !replace ==> Payload(w) == base
    requires RollbackPlan(base, prior, replace).outcome.Ok?
    ensures var after := PerformAll(w, RollbackPlan(base, prior, replace).writes);
            && after.disk.pending.None? && OpenUnlocked(codec, after).Ok?
            && OpenUnlocked(codec, after).value.records == prior
  {
    hide Load, Replay, OpenUnlocked, PerformAll, Interrupted, AnchorFor;
    var snap := if prior == [] then DropSnapshot else SetSnapshot(SnapshotFor(prior).value);
    var journal := SetJournal(base);
    CutTwo(w, snap, ClearPending, 2, 0);
    CutThree(w, journal, snap, ClearPending, 3, 0);
    assert [] + [snap, ClearPending] == [snap, ClearPending];
    assert [journal] + [snap, ClearPending] == [journal, snap, ClearPending];
    NothingReplays();
    FilesOpen(codec, PerformAll(w, RollbackPlan(base, prior, replace).writes), prior);
  }

  lemma NothingReplays()
    ensures EventsOf([]) == [] && Replay([]).Ok?
  {
  }

  lemma CompletedOpens(codec: Codec, w: World, base: seq<byte>, prior: seq<Record>, p: Pending)
    requires Faithful(codec) && Load(codec, base) == Ok(prior) && WellFormedPending(p)
    requires |prior| == p.priorCount && Head(prior) == p.priorHead && w.anchor == Some(AnchorOf(p.snapshot))
    requires ForwardPlan(base, Line(codec, p.record), prior, p).outcome.Ok?
    ensures var after := PerformAll(w, ForwardPlan(base, Line(codec, p.record), prior, p).writes);
            && after.disk.pending.None? && OpenUnlocked(codec, after).Ok?
            && OpenUnlocked(codec, after).value.records == prior + [p.record]
  {
    hide Load, Replay, Line, OpenUnlocked, PerformAll, Interrupted;
    LoadExtended(codec, base, p.record);
    var records := prior + [p.record];
    CutThree(w, SetJournal(base + Line(codec, p.record)), SetSnapshot(SnapshotFor(records).value), ClearPending, 3, 0);
    FilesOpen(codec, PerformAll(w, ForwardPlan(base, Line(codec, p.record), prior, p).writes), records);
  }

  /**
   * Whatever the directory holds, tampered or not: a recovery that completes has
   * dropped the pending append, and what it leaves opens.
   */
  lemma RecoveredOpens(codec: Codec, w: World)
    requires Faithful(codec) && w.disk.pending.Some? && RecoverPlan(codec, w).outcome.Ok?
    ensures var after := PerformAll(w, RecoverPlan(codec, w).writes);
            after.disk.pending.None? && OpenUnlocked(codec, after).Ok?
  {
    hide Load, Line, OpenUnlocked, PerformAll, WellFormedPending, RollbackPlan, ForwardPlan, AnchorFor;
    var p, payload := w.disk.pending.value, Payload(w);
    var base, tail := payload[..p.priorLen], payload[p.priorLen..];
    var prior := Load(codec, base).value;
    if w.anchor == AnchorFor(prior) {
      assert tail == [] ==> payload == base;
      RolledBackOpens(codec, w, base, prior, tail != []);
    } else {
      CompletedOpens(codec, w, base, prior, p);
    }
  }
}
