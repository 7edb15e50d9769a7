/**
 * When capital can be taken out of a timeline: what a journal's movements leave at
 * every point in time, without sorting them, decides whether a debit is covered.
 */
module CapitalStanding {
  import opened Prelude
  import opened LedgerEvents
  import opened CapitalTimeline

  function Change(e: Entry): int {
    e.credit - e.debit
  }

  /**
   * What the movements dated before a time leave, with those of the time itself
   * among the first `n`; the movements stand in the order they were recorded in.
   */
  function Standing(moves: seq<Entry>, t: Time, n: nat): int {
    if moves == [] then 0
    else
      var front, last := moves[..|moves| - 1], moves[|moves| - 1];
      Standing(front, t, n) + if last.at < t || (last.at == t && |front| < n) then Change(last) else 0
  }

  /** From a time on, at least this much stands at every point. */
  ghost predicate StandsFrom(moves: seq<Entry>, at: Time, amount: int) {
    && Standing(moves, at, |moves|) >= amount
    && forall t: Time, n: nat | t > at :: Standing(moves, t, n) >= amount
  }

  lemma {:induction false} NoneAfterAll(moves: seq<Entry>, t: Time, n: nat)
    requires n >= |moves|
    ensures Standing(moves, t, n) == Standing(moves, t, |moves|)
  {
    if moves != [] {
      NoneAfterAll(moves[..|moves| - 1], t, n);
      NoneAfterAll(moves[..|moves| - 1], t, |moves|);
    }
  }

  /** The position that divides a sorted timeline at a time. */
  ghost predicate Divides(timeline: seq<Entry>, t: Time, m: nat) {
    && m <= |timeline|
    && (forall j | 0 <= j < m :: timeline[j].at <= t)
    && (forall j | m <= j < |timeline| :: timeline[j].at > t)
  }

  /** An entry goes where its time divides the timeline. */
  lemma {:induction false} InsertDivides(timeline: seq<Entry>, e: Entry) returns (p: nat)
    requires Sorted(timeline)
    ensures Divides(timeline, e.at, p)
    ensures InsertByTime(timeline, e) == timeline[..p] + [e] + timeline[p..]
  {
    if timeline == [] || e.at < timeline[0].at {
      p := 0;
      assert timeline[..0] == [] && timeline[0..] == timeline;
    } else {
      var q := InsertDivides(timeline[1..], e);
      p := q + 1;
      assert timeline == [timeline[0]] + timeline[1..];
      assert timeline[..p] == [timeline[0]] + timeline[1..][..q] && timeline[p..] == timeline[1..][q..];
    }
  }

  lemma {:induction false} NetConcat(a: seq<Entry>, b: seq<Entry>)
    ensures Net(a + b) == Net(a) + Net(b)
  {
    if a == [] {
      assert a + b == b;
    } else {
      NetConcat(a[1..], b);
      assert (a + b)[1..] == a[1..] + b;
    }
  }

  /** Prefixes of a timeline with one entry more. */
  lemma PrefixOfInsert(timeline: seq<Entry>, e: Entry, p: nat, m: nat)
    requires p <= |timeline| && m <= |timeline| + 1
    ensures var next := timeline[..p] + [e] + timeline[p..];
            && (m <= p ==> next[..m] == timeline[..m])
            && (m > p ==> Net(next[..m]) == Net(timeline[..m - 1]) + Change(e))
  {
    var next := timeline[..p] + [e] + timeline[p..];
    if m <= p {
      assert next[..m] == timeline[..m];
    } else {
      assert next[..m] == timeline[..p] + [e] + timeline[p..m - 1];
      assert timeline[..m - 1] == timeline[..p] + timeline[p..m - 1];
      NetConcat(timeline[..p] + [e], timeline[p..m - 1]);
      NetConcat(timeline[..p], [e]);
      NetConcat(timeline[..p], timeline[p..m - 1]);
    }
  }

  lemma {:induction false} SortedAlways(moves: seq<Entry>)
    ensures Sorted(StableSort(moves)) && |StableSort(moves)| == |moves|
  {
    if moves != [] {
      var front, last := moves[..|moves| - 1], moves[|moves| - 1];
      SortedAlways(front);
      InsertKeepsSorted(StableSort(front), last);
      InsertAddsOne(StableSort(front), last);
      assert |multiset(StableSort(moves))| == |multiset(StableSort(front))| + 1;
    } else {
      assert StableSort(moves) == [];
    }
  }

  /** A prefix of the sorted timeline whose entries are up to a time and the rest from it on. */
  ghost predicate CutsAt(timeline: seq<Entry>, t: Time, m: nat) {
    && m <= |timeline|
    && (forall j | 0 <= j < m :: timeline[j].at <= t)
    && (forall j | m <= j < |timeline| :: timeline[j].at >= t)
  }

  lemma CutOfInsert(timeline: seq<Entry>, e: Entry, p: nat, t: Time, m: nat)
    requires Divides(timeline, e.at, p) && CutsAt(timeline, t, m)
    ensures p <= m && e.at <= t ==> CutsAt(timeline[..p] + [e] + timeline[p..], t, m + 1)
    ensures m <= p && t <= e.at ==> CutsAt(timeline[..p] + [e] + timeline[p..], t, m)
  {
    hide Net;
  }

  lemma DivideOfInsert(timeline: seq<Entry>, e: Entry, p: nat, t: Time, m: nat)
    requires Divides(timeline, e.at, p) && Divides(timeline, t, m)
    ensures e.at <= t ==> p <= m && Divides(timeline[..p] + [e] + timeline[p..], t, m + 1)
    ensures e.at > t ==> m <= p && Divides(timeline[..p] + [e] + timeline[p..], t, m)
  {
    var atM := if m < |timeline| then timeline[m].at else t;
    var atP := if p < |timeline| then timeline[p].at else t;
  }

  /** What stands after all movements up to a time is the prefix of the timeline that its time divides off. */
  lemma {:induction false} AllUpTo(moves: seq<Entry>, t: Time) returns (m: nat)
    ensures Divides(StableSort(moves), t, m)
    ensures Net(StableSort(moves)[..m]) == Standing(moves, t, |moves|)
  {
    if moves == [] {
      m := 0;
    } else {
      var front, last := moves[..|moves| - 1], moves[|moves| - 1];
      var timeline := StableSort(front);
      m := AllUpTo(front, t);
      NoneAfterAll(front, t, |moves|);
      SortedAlways(front);
      var p := InsertDivides(timeline, last);
      DivideOfInsert(timeline, last, p, t, m);
      if last.at <= t {
        PrefixOfInsert(timeline, last, p, m + 1);
        m := m + 1;
      } else {
        PrefixOfInsert(timeline, last, p, m);
      }
    }
  }

  lemma CutBesideDivide(timeline: seq<Entry>, t: Time, m: nat, u: Time, p: nat)
    requires CutsAt(timeline, t, m) && Divides(timeline, u, p)
    ensures u < t ==> p <= m
    ensures t <= u ==> m <= p
  {
    var atM := if m < |timeline| then timeline[m].at else t;
    var atP := if p < |timeline| then timeline[p].at else t;
  }

  /** The last movement changes the sorted timeline at one place, and what stands from its time on. */
  lemma LastMove(moves: seq<Entry>) returns (p: nat)
    requires moves != []
    ensures var front, last := moves[..|moves| - 1], moves[|moves| - 1];
            var timeline := StableSort(front);
            && Sorted(timeline) && |timeline| == |front| && Divides(timeline, last.at, p)
            && StableSort(moves) == timeline[..p] + [last] + timeline[p..]
    ensures forall t: Time, n: nat ::
              var front, last := moves[..|moves| - 1], moves[|moves| - 1];
              Standing(moves, t, n)
              == Standing(front, t, n) + if last.at < t || (last.at == t && |front| < n) then Change(last) else 0
  {
    var front, last := moves[..|moves| - 1], moves[|moves| - 1];
    SortedAlways(front);
    p := InsertDivides(StableSort(front), last);
  }

  /** Every point in time stands at some prefix of the timeline. */
  lemma {:induction false} PointIsPrefix(moves: seq<Entry>, t: Time, n: nat) returns (m: nat)
    requires n <= |moves|
    ensures CutsAt(StableSort(moves), t, m)
    ensures Net(StableSort(moves)[..m]) == Standing(moves, t, n)
  {
    hide Net, Standing, StableSort, CutsAt, Divides, Sorted;
    if n == |moves| {
      m := AllUpTo(moves, t);
      DivideCuts(StableSort(moves), t, m);
    } else {
      var front, last := moves[..|moves| - 1], moves[|moves| - 1];
      var timeline := StableSort(front);
      m := PointIsPrefix(front, t, n);
      var p := LastMove(moves);
      CutInRange(timeline, t, m, last.at, p);
      CutOfInsert(timeline, last, p, t, m);
      CutBesideDivide(timeline, t, m, last.at, p);
      if last.at < t {
        PrefixOfInsert(timeline, last, p, m + 1);
        m := m + 1;
      } else {
        PrefixOfInsert(timeline, last, p, m);
      }
    }
  }

  lemma DivideCuts(timeline: seq<Entry>, t: Time, m: nat)
    requires Divides(timeline, t, m)
    ensures CutsAt(timeline, t, m)
  {
  }

  lemma CutInRange(timeline: seq<Entry>, t: Time, m: nat, u: Time, p: nat)
    requires CutsAt(timeline, t, m) && Divides(timeline, u, p)
    ensures m <= |timeline| && p <= |timeline|
  {
  }

  lemma DivideBounds(timeline: seq<Entry>, t: Time, p: nat)
    requires Divides(timeline, t, p)
    ensures p <= |timeline|
    ensures forall j | 0 <= j < |timeline| :: timeline[j].at <= t <==> j < p
  {
  }

  /** Every prefix of the timeline that is not empty stands at some point, at the time of its last entry. */
  lemma {:induction false} PrefixIsPoint(moves: seq<Entry>, m: nat) returns (n: nat)
    requires 0 < m <= |StableSort(moves)|
    ensures Net(StableSort(moves)[..m]) == Standing(moves, StableSort(moves)[m - 1].at, n)
    ensures n <= |moves|
  {
    SortedAlways(moves);
    hide Net, Standing, StableSort, Divides, Sorted;
    var front, last := moves[..|moves| - 1], moves[|moves| - 1];
    var timeline := StableSort(front);
    var p := LastMove(moves);
    DivideBounds(timeline, last.at, p);
    PrefixOfInsert(timeline, last, p, m);
    if m <= p {
      n := PrefixIsPoint(front, m);
    } else if m == p + 1 {
      var q := AllUpTo(front, last.at);
      DividesOnce(timeline, last.at, p, q);
      NoneAfterAll(front, last.at, |moves|);
      n := |moves|;
    } else {
      n := PrefixIsPoint(front, m - 1);
    }
  }

  lemma DividesOnce(timeline: seq<Entry>, t: Time, p: nat, q: nat)
    requires Divides(timeline, t, p) && Divides(timeline, t, q)
    ensures p == q
  {
    var atP := if p < |timeline| then timeline[p].at else t;
    var atQ := if q < |timeline| then timeline[q].at else t;
  }

  /** A timeline is covered exactly when no prefix is overdrawn. */
  lemma {:induction false} CoveredIff(timeline: seq<Entry>, balance: int)
    requires balance >= 0
    ensures Covered(timeline, balance) <==> forall m | 0 <= m <= |timeline| :: balance + Net(timeline[..m]) >= 0
  {
    if timeline != [] {
      var first := timeline[0];
      var next := balance + Change(first);
      assert timeline[..1] == [first] && Net([first]) == Change(first) by {
        assert [first][1..] == [];
      }
      forall m | 1 <= m <= |timeline|
        ensures balance + Net(timeline[..m]) == next + Net(timeline[1..][..m - 1])
      {
        assert timeline[..m][1..] == timeline[1..][..m - 1];
      }
      if next >= 0 {
        CoveredIff(timeline[1..], next);
        forall m | 0 <= m <= |timeline| - 1
          ensures next + Net(timeline[1..][..m]) == balance + Net(timeline[..m + 1])
        {
        }
      } else {
        assert balance + Net(timeline[..1]) < 0;
      }
    }
  }

  /** Taking capital out at a time is covered exactly when enough stands from then on. */
  lemma DebitIsCoveredIff(moves: seq<Entry>, at: Time, amount: u64)
    requires Covered(StableSort(moves), 0)
    ensures Covered(InsertByTime(StableSort(moves), Entry(at, 0, amount)), 0) <==> StandsFrom(moves, at, amount)
  {
    var timeline, x := StableSort(moves), Entry(at, 0, amount);
    SortedAlways(moves);
    var p := InsertDivides(timeline, x);
    var next := timeline[..p] + [x] + timeline[p..];
    CoveredIff(timeline, 0);
    CoveredIff(next, 0);
    hide StableSort, Covered, Net, Standing, InsertByTime;
    if Covered(next, 0) {
      CoveredStands(moves, at, amount, p);
    }
    if StandsFrom(moves, at, amount) {
      StandingCovers(moves, at, amount, p);
    }
  }

  lemma CoveredStands(moves: seq<Entry>, at: Time, amount: u64, p: nat)
    requires var timeline := StableSort(moves);
             && Divides(timeline, at, p)
             && var next := timeline[..p] + [Entry(at, 0, amount)] + timeline[p..];
                forall m | 0 <= m <= |next| :: Net(next[..m]) >= 0
    ensures StandsFrom(moves, at, amount)
  {
    hide StableSort, Net, Standing;
    var timeline, x := StableSort(moves), Entry(at, 0, amount);
    var q := AllUpTo(moves, at);
    DividesOnce(timeline, at, p, q);
    PrefixOfInsert(timeline, x, p, p + 1);
    forall t: Time, n: nat | t > at
      ensures Standing(moves, t, n) >= amount
    {
      var k := if n <= |moves| then n else |moves|;
      if n > |moves| {
        NoneAfterAll(moves, t, n);
      }
      var m := PointIsPrefix(moves, t, k);
      CutBesideDivide(timeline, t, m, at, p);
      PrefixOfInsert(timeline, x, p, m + 1);
    }
  }

  lemma StandingCovers(moves: seq<Entry>, at: Time, amount: u64, p: nat)
    requires StandsFrom(moves, at, amount)
    requires var timeline := StableSort(moves);
             Divides(timeline, at, p) && forall m | 0 <= m <= |timeline| :: Net(timeline[..m]) >= 0
    ensures var timeline := StableSort(moves);
            var next := timeline[..p] + [Entry(at, 0, amount)] + timeline[p..];
            forall m | 0 <= m <= |next| :: Net(next[..m]) >= 0
  {
    hide StableSort, Net, Standing;
    var timeline, x := StableSort(moves), Entry(at, 0, amount);
    var next := timeline[..p] + [x] + timeline[p..];
    var q := AllUpTo(moves, at);
    DividesOnce(timeline, at, p, q);
    forall m | 0 <= m <= |next|
      ensures Net(next[..m]) >= 0
    {
      PrefixOfInsert(timeline, x, p, m);
      if m > p + 1 {
        var n := PrefixIsPoint(moves, m - 1);
        assert timeline[m - 2].at > at;
      }
    }
  }

  /** With less to start from a covered run still passes. */
  lemma {:induction false} RunLower(timeline: seq<Entry>, low: u64, high: u64)
    requires RunTimeline(timeline, high).Ok? && Covered(timeline, low) && low <= high
    ensures RunTimeline(timeline, low).Ok?
  {
    if timeline != [] {
      RunLower(timeline[1..], low + Change(timeline[0]), high + Change(timeline[0]));
    }
  }

  /** A debit overflows nothing: the longer timeline passes exactly when it is covered. */
  lemma {:induction false} DebitRunsIff(timeline: seq<Entry>, x: Entry, balance: u64)
    requires RunTimeline(timeline, balance).Ok? && x.credit == 0
    ensures RunTimeline(InsertByTime(timeline, x), balance).Ok? <==> Covered(InsertByTime(timeline, x), balance)
  {
    if RunTimeline(InsertByTime(timeline, x), balance).Ok? {
      RunIsNet(InsertByTime(timeline, x), balance);
    }
    if timeline == [] || x.at < timeline[0].at {
      assert ([x] + timeline)[1..] == timeline;
      if Covered([x] + timeline, balance) {
        RunLower(timeline, balance - x.debit, balance);
      }
    } else {
      assert InsertByTime(timeline, x)[1..] == InsertByTime(timeline[1..], x);
      DebitRunsIff(timeline[1..], x, balance + Change(timeline[0]));
    }
  }
}
