/**
 * The time-sorted capital timeline: stable insertion of a possibly back-dated
 * entry, the running overdraft check, and what a refund does to both.
 */
module CapitalTimeline {
  import opened Prelude
  import opened LedgerEvents

  datatype Entry = Entry(at: Time, credit: u64, debit: u64)

  predicate Sorted(timeline: seq<Entry>) {
    forall i, j | 0 <= i < j < |timeline| :: timeline[i].at <= timeline[j].at
  }

  /** Places an entry behind every entry that is not later than it. */
  function InsertByTime(timeline: seq<Entry>, e: Entry): seq<Entry> {
    if timeline == [] || e.at < timeline[0].at then [e] + timeline
    else [timeline[0]] + InsertByTime(timeline[1..], e)
  }

  /** Insertion adds the entry and loses none. */
  lemma {:induction false} InsertAddsOne(timeline: seq<Entry>, e: Entry)
    ensures multiset(InsertByTime(timeline, e)) == multiset(timeline) + multiset{e}
  {
    if timeline != [] && timeline[0].at <= e.at {
      InsertAddsOne(timeline[1..], e);
      assert timeline == [timeline[0]] + timeline[1..];
    }
  }

  /** A stable sort by time: equal times keep the order they came in. */
  function StableSort(entries: seq<Entry>): seq<Entry> {
    if entries == [] then []
    else InsertByTime(StableSort(entries[..|entries| - 1]), entries[|entries| - 1])
  }

  lemma {:induction false} InsertKeepsFloor(timeline: seq<Entry>, e: Entry, floor: Time)
    requires floor <= e.at && forall i | 0 <= i < |timeline| :: floor <= timeline[i].at
    ensures forall i | 0 <= i < |InsertByTime(timeline, e)| :: floor <= InsertByTime(timeline, e)[i].at
  {
    if timeline != [] && timeline[0].at <= e.at {
      InsertKeepsFloor(timeline[1..], e, floor);
    }
  }

  lemma {:induction false} InsertKeepsSorted(timeline: seq<Entry>, e: Entry)
    requires Sorted(timeline)
    ensures Sorted(InsertByTime(timeline, e))
  {
    if timeline != [] && timeline[0].at <= e.at {
      InsertKeepsSorted(timeline[1..], e);
      InsertKeepsFloor(timeline[1..], e, timeline[0].at);
      hide InsertByTime;
      assert InsertByTime(timeline, e) == [timeline[0]] + InsertByTime(timeline[1..], e);
    }
  }

  lemma {:induction false} InsertAtEnd(timeline: seq<Entry>, e: Entry)
    requires forall i | 0 <= i < |timeline| :: timeline[i].at <= e.at
    ensures InsertByTime(timeline, e) == timeline + [e]
  {
    if timeline != [] {
      InsertAtEnd(timeline[1..], e);
      assert timeline == [timeline[0]] + timeline[1..];
    }
  }

  lemma {:induction false} SortOfSorted(timeline: seq<Entry>)
    requires Sorted(timeline)
    ensures StableSort(timeline) == timeline
  {
    if timeline != [] {
      var n := |timeline| - 1;
      SortOfSorted(timeline[..n]);
      InsertAtEnd(timeline[..n], timeline[n]);
      assert timeline == timeline[..n] + [timeline[n]];
    }
  }

  /** Pushing onto a sorted timeline and sorting it again is stable insertion. */
  lemma PushThenSort(timeline: seq<Entry>, e: Entry)
    requires Sorted(timeline)
    ensures StableSort(timeline + [e]) == InsertByTime(timeline, e)
  {
    SortOfSorted(timeline);
    assert (timeline + [e])[..|timeline|] == timeline;
  }

  /** The checked running balance of a timeline, in its own order. */
  function RunTimeline(timeline: seq<Entry>, balance: u64): Result<u64, LedgerError> {
    if timeline == [] then Ok(balance)
    else
      var raised :- CheckedAdd(balance, timeline[0].credit);
      :- Need(timeline[0].debit <= raised, InsufficientDeployableCapital);
      RunTimeline(timeline[1..], raised - timeline[0].debit)
  }

  /** What the timeline adds up to, without regard to order or bounds. */
  function Net(timeline: seq<Entry>): int {
    if timeline == [] then 0
    else timeline[0].credit - timeline[0].debit + Net(timeline[1..])
  }

  /** No entry debits more than what the entries before it left. */
  predicate Covered(timeline: seq<Entry>, balance: int) {
    timeline == [] ||
    (timeline[0].debit <= balance + timeline[0].credit
     && Covered(timeline[1..], balance + timeline[0].credit - timeline[0].debit))
  }

  lemma {:induction false} NetOfInsert(timeline: seq<Entry>, e: Entry)
    ensures Net(InsertByTime(timeline, e)) == Net(timeline) + e.credit - e.debit
  {
    if timeline == [] || e.at < timeline[0].at {
      assert ([e] + timeline)[1..] == timeline;
    } else {
      NetOfInsert(timeline[1..], e);
      assert InsertByTime(timeline, e)[1..] == InsertByTime(timeline[1..], e);
    }
  }

  lemma {:induction false} NetOfPrefix(timeline: seq<Entry>, e: Entry)
    ensures Net(timeline + [e]) == Net(timeline) + e.credit - e.debit
  {
    if timeline != [] {
      NetOfPrefix(timeline[1..], e);
      assert (timeline + [e])[1..] == timeline[1..] + [e];
    }
  }

  /** A run that succeeds ends at the net sum and never went below zero. */
  lemma {:induction false} RunIsNet(timeline: seq<Entry>, balance: u64)
    requires RunTimeline(timeline, balance).Ok?
    ensures RunTimeline(timeline, balance).value == balance + Net(timeline)
    ensures Covered(timeline, balance)
  {
    if timeline != [] {
      RunIsNet(timeline[1..], balance + timeline[0].credit - timeline[0].debit);
    }
  }

  lemma {:induction false} CoveredIsMonotone(timeline: seq<Entry>, low: int, high: int)
    requires Covered(timeline, low) && low <= high
    ensures Covered(timeline, high)
  {
    if timeline != [] {
      var change := timeline[0].credit - timeline[0].debit;
      CoveredIsMonotone(timeline[1..], low + change, high + change);
    }
  }

  /** A refund, wherever it is dated, cannot overdraw a covered timeline. */
  lemma {:induction false} RefundKeepsCovered(timeline: seq<Entry>, e: Entry, balance: int)
    requires Covered(timeline, balance) && balance >= 0
    requires e.debit <= e.credit
    ensures Covered(InsertByTime(timeline, e), balance)
  {
    if timeline == [] || e.at < timeline[0].at {
      assert ([e] + timeline)[1..] == timeline;
      CoveredIsMonotone(timeline, balance, balance + e.credit - e.debit);
    } else {
      assert InsertByTime(timeline, e)[1..] == InsertByTime(timeline[1..], e);
      RefundKeepsCovered(timeline[1..], e, balance + timeline[0].credit - timeline[0].debit);
    }
  }

  /** Every prefix of a covered timeline closes at or above zero. */
  lemma {:induction false} CoveredPrefixes(timeline: seq<Entry>, balance: int, n: nat)
    requires Covered(timeline, balance) && balance >= 0
    requires n <= |timeline|
    ensures balance + Net(timeline[..n]) >= 0
  {
    if n > 0 {
      CoveredPrefixes(timeline[1..], balance + timeline[0].credit - timeline[0].debit, n - 1);
      assert timeline[..n][1..] == timeline[1..][..n - 1];
    }
  }
}
