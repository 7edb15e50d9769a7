/** Point-in-time data: revised observations as they were known at a time, and capital events in their order of use. */
module PointInTime {
  import opened LedgerEvents

  datatype Revision = Revision(series: string, date: Date, value: real, availableAt: Time, revisionId: string)

  datatype Bar = Bar(at: Time, price: real)

  datatype CapitalKind = DepositKind | WithdrawalKind

  datatype CapitalEvent = CapitalEvent(id: Id, kind: CapitalKind, amount: real, usableAt: Time)

  /** Strings in code point order. */
  predicate Before(a: string, b: string) {
    b != [] && (a == [] || a[0] < b[0] || (a[0] == b[0] && Before(a[1..], b[1..])))
  }

  lemma {:induction false} BeforeIsTransitive(a: string, b: string, c: string)
    requires Before(a, b) && Before(b, c)
    ensures Before(a, c)
  {
    if a != [] && a[0] == b[0] == c[0] {
      BeforeIsTransitive(a[1..], b[1..], c[1..]);
    }
  }

  lemma {:induction false} BeforeIsTotal(a: string, b: string)
    ensures Before(a, b) || Before(b, a) || a == b
    ensures !(Before(a, b) && Before(b, a)) && (Before(a, b) ==> a != b)
  {
    if a != [] && b != [] && a[0] == b[0] {
      BeforeIsTotal(a[1..], b[1..]);
      assert a == [a[0]] + a[1..] && b == [b[0]] + b[1..];
    }
  }

  /** A revision known later, or at the same time under a later identifier. */
  predicate Newer(a: Revision, b: Revision) {
    a.availableAt > b.availableAt || (a.availableAt == b.availableAt && Before(b.revisionId, a.revisionId))
  }

  /** Revisions of the series that can be used at a decision. */
  predicate Usable(r: Revision, series: string, at: Time, lag: int) {
    r.series == series && r.availableAt <= at && r.date <= DateOf(at) - lag
  }

  /** The newest usable revision of every date. */
  function Latest(rs: seq<Revision>, series: string, at: Time, lag: int): map<Date, Revision> {
    if rs == [] then map[]
    else
      var latest, item := Latest(rs[..|rs| - 1], series, at, lag), rs[|rs| - 1];
      if !Usable(item, series, at, lag) then latest
      else if item.date in latest && !Newer(item, latest[item.date]) then latest
      else latest[item.date := item]
  }

  /** A history lists the newest usable revision of every date that has one, and nothing else. */
  lemma {:induction false} LatestIsNewest(rs: seq<Revision>, series: string, at: Time, lag: int)
    ensures var latest := Latest(rs, series, at, lag);
            && (forall d :: d in latest ==>
                  latest[d] in rs && Usable(latest[d], series, at, lag) && latest[d].date == d)
            && (forall r :: r in rs && Usable(r, series, at, lag) ==>
                  r.date in latest && !Newer(r, latest[r.date]))
  {
    hide Usable, Before;
    if rs != [] {
      var front, item := rs[..|rs| - 1], rs[|rs| - 1];
      var latest, next := Latest(front, series, at, lag), Latest(rs, series, at, lag);
      LatestIsNewest(front, series, at, lag);
      assert forall r :: r in rs <==> r in front || r == item;
      NotNewerThanItself(item);
      forall r | r in rs && Usable(r, series, at, lag)
        ensures r.date in next && !Newer(r, next[r.date])
      {
        if r in front && r.date == item.date && next[r.date] != latest[r.date] {
          NewerChain(r, latest[r.date], item);
        }
      }
    }
  }

  lemma NotNewerThanItself(r: Revision)
    ensures !Newer(r, r)
  {
    BeforeIsTotal(r.revisionId, r.revisionId);
  }

  /** What is not newer than a revision is not newer than one that replaces it. */
  lemma NewerChain(a: Revision, b: Revision, c: Revision)
    requires !Newer(a, b) && Newer(c, b)
    ensures !Newer(a, c)
  {
    BeforeIsTotal(a.revisionId, b.revisionId);
    if Before(a.revisionId, b.revisionId) && Before(b.revisionId, c.revisionId) {
      BeforeIsTransitive(a.revisionId, b.revisionId, c.revisionId);
    }
    BeforeIsTotal(a.revisionId, c.revisionId);
  }

  /** What was known by a time. */
  function KnownBy(rs: seq<Revision>, t: Time): seq<Revision> {
    if rs == [] then []
    else
      var front, item := KnownBy(rs[..|rs| - 1], t), rs[|rs| - 1];
      if item.availableAt <= t then front + [item] else front
  }

  /** A decision sees nothing that became known after it. */
  lemma {:induction false} LatestOfKnown(rs: seq<Revision>, t: Time, series: string, at: Time, lag: int)
    requires at <= t
    ensures Latest(KnownBy(rs, t), series, at, lag) == Latest(rs, series, at, lag)
  {
    hide Newer;
    if rs != [] {
      var known, item := KnownBy(rs[..|rs| - 1], t), rs[|rs| - 1];
      LatestOfKnown(rs[..|rs| - 1], t, series, at, lag);
      assert (known + [item])[..|known|] == known;
    }
  }

  /** What was known by a time are the revisions available by then. */
  lemma {:induction false} KnownByIs(rs: seq<Revision>, t: Time, r: Revision)
    ensures r in KnownBy(rs, t) <==> r in rs && r.availableAt <= t
  {
    if rs != [] {
      KnownByIs(rs[..|rs| - 1], t, r);
      assert rs == rs[..|rs| - 1] + [rs[|rs| - 1]];
    }
  }

  /** What was known by the earlier of two times is what was known by it of what was known by the later. */
  lemma {:induction false} KnownByEarlier(rs: seq<Revision>, s: Time, t: Time)
    requires s <= t
    ensures KnownBy(KnownBy(rs, t), s) == KnownBy(rs, s)
  {
    if rs != [] {
      var known, item := KnownBy(rs[..|rs| - 1], t), rs[|rs| - 1];
      KnownByEarlier(rs[..|rs| - 1], s, t);
      assert (known + [item])[..|known|] == known;
    }
  }

  /** The earliest of some dates. */
  function FirstDate(dates: set<Date>): (d: Date)
    requires |dates| > 0
    ensures d in dates && forall e :: e in dates ==> d <= e
  {
    SomeDateIsFirst(dates);
    var d :| d in dates && forall e :: e in dates ==> d <= e;
    d
  }

  lemma SomeDate(dates: set<Date>) returns (d: Date)
    requires |dates| > 0
    ensures d in dates
  {
    assert (exists d :: d in dates) || dates == {};
    d :| d in dates;
  }

  lemma {:induction false} SomeDateIsFirst(dates: set<Date>)
    requires |dates| > 0
    ensures exists d :: d in dates && forall e :: e in dates ==> d <= e
    decreases |dates|
  {
    var x := SomeDate(dates);
    var rest := dates - {x};
    if |rest| == 0 {
      OnlyDate(dates, x);
    } else {
      SomeDateIsFirst(rest);
      var y :| y in rest && forall e :: e in rest ==> y <= e;
      FirstOfBoth(dates, x, y);
    }
  }

  lemma OnlyDate(dates: set<Date>, x: Date)
    requires x in dates && |dates - {x}| == 0
    ensures forall e :: e in dates ==> x <= e
  {
    assert dates - {x} == {};
    assert forall e :: e in dates ==> e == x || e in dates - {x};
  }

  lemma FirstOfBoth(dates: set<Date>, x: Date, y: Date)
    requires x in dates && y in dates && forall e :: e in dates - {x} ==> y <= e
    ensures exists d :: d in dates && forall e :: e in dates ==> d <= e
  {
    var d := if x < y then x else y;
    assert forall e :: e in dates ==> e == x || e in dates - {x};
    assert d in dates && forall e :: e in dates ==> d <= e;
  }

  /** The values of a map, by ascending date. */
  function ByDate(latest: map<Date, Revision>): (rs: seq<Revision>)
    decreases |latest.Keys|
  {
    if |latest.Keys| == 0 then []
    else
      var d := FirstDate(latest.Keys);
      assert (latest - {d}).Keys == latest.Keys - {d};
      [latest[d]] + ByDate(latest - {d})
  }

  /** It holds exactly the values of the map. */
  lemma {:induction false} ByDateHolds(latest: map<Date, Revision>, r: Revision)
    requires forall d :: d in latest ==> latest[d].date == d
    ensures r in ByDate(latest) <==> r.date in latest && latest[r.date] == r
    decreases |latest.Keys|
  {
    if |latest.Keys| == 0 {
      assert latest.Keys == {};
    } else {
      var d := FirstDate(latest.Keys);
      assert (latest - {d}).Keys == latest.Keys - {d};
      ByDateHolds(latest - {d}, r);
    }
  }

  ghost predicate DatesAscend(rs: seq<Revision>) {
    forall i, j | 0 <= i < j < |rs| :: rs[i].date < rs[j].date
  }

  /** Strictly by date. */
  lemma {:induction false} ByDateAscends(latest: map<Date, Revision>)
    requires forall d :: d in latest ==> latest[d].date == d
    ensures DatesAscend(ByDate(latest))
    decreases |latest.Keys|
  {
    if |latest.Keys| != 0 {
      var d := FirstDate(latest.Keys);
      var rest := latest - {d};
      assert rest.Keys == latest.Keys - {d};
      ByDateAscends(rest);
      forall r | r in ByDate(rest)
        ensures d < r.date
      {
        ByDateHolds(rest, r);
      }
      AscendFromFirst(latest[d], ByDate(rest));
    }
  }

  lemma AscendFromFirst(first: Revision, rest: seq<Revision>)
    requires DatesAscend(rest) && forall r :: r in rest ==> first.date < r.date
    ensures DatesAscend([first] + rest)
  {
  }

  /** The history of a series as it was known at a decision. */
  function History(rs: seq<Revision>, series: string, at: Time, lag: int): seq<Revision> {
    ByDate(Latest(rs, series, at, lag))
  }

  /** A revision of a series that a decision may use: available by then, and of a date at least the lag before it. */
  ghost predicate Visible(r: Revision, series: string, at: Time, lag: int) {
    r.series == series && r.availableAt <= at && (r.date + lag) * DAY_NANOS <= at
  }

  /** Available later, or at the same time under a larger identifier. */
  ghost predicate Supersedes(a: Revision, b: Revision) {
    || a.availableAt > b.availableAt
    || (a.availableAt == b.availableAt && exists n :: PrecedesAt(b.revisionId, a.revisionId, n))
  }

  lemma VisibleIsUsable(r: Revision, series: string, at: Time, lag: int)
    ensures Visible(r, series, at, lag) <==> Usable(r, series, at, lag)
  {
  }

  lemma SupersedesIsNewer(a: Revision, b: Revision)
    ensures Supersedes(a, b) <==> Newer(a, b)
  {
    BeforeIsLexicographic(b.revisionId, a.revisionId);
    hide Before;
  }

  /** A history holds a revision exactly when it is visible and no other visible one of its date supersedes it. */
  ghost predicate IsShown(rs: seq<Revision>, series: string, at: Time, lag: int, r: Revision) {
    && r in rs && Visible(r, series, at, lag)
    && forall q :: q in rs && Visible(q, series, at, lag) && q.date == r.date ==> !Supersedes(q, r)
  }

  lemma LatestTold(rs: seq<Revision>, series: string, at: Time, lag: int)
    ensures var latest := Latest(rs, series, at, lag);
            && (forall d :: d in latest ==> latest[d].date == d)
            && (forall d :: d in latest ==> latest[d] in rs)
            && (forall d :: d in latest ==> Usable(latest[d], series, at, lag))
            && (forall r :: r in rs && Usable(r, series, at, lag) ==> r.date in latest && !Newer(r, latest[r.date]))
  {
    LatestIsNewest(rs, series, at, lag);
  }

  /** So a decision sees, date by date, the revisions that were current at the time, and their values. */
  lemma HistoryIsPointInTime(rs: seq<Revision>, series: string, at: Time, lag: int)
    ensures DatesAscend(History(rs, series, at, lag))
    ensures forall r :: r in History(rs, series, at, lag) ==> IsShown(rs, series, at, lag, r)
    ensures forall r :: r in rs && Visible(r, series, at, lag) ==>
              exists q :: q in History(rs, series, at, lag) && q.date == r.date
  {
    hide Visible, Supersedes, Usable, Newer, ByDate, DatesAscend;
    var latest := Latest(rs, series, at, lag);
    LatestTold(rs, series, at, lag);
    ByDateAscends(latest);
    forall r | r in History(rs, series, at, lag)
      ensures IsShown(rs, series, at, lag, r)
    {
      ByDateHolds(latest, r);
      VisibleIsUsable(r, series, at, lag);
      forall q | q in rs && Visible(q, series, at, lag) && q.date == r.date
        ensures !Supersedes(q, r)
      {
        VisibleIsUsable(q, series, at, lag);
        SupersedesIsNewer(q, r);
      }
    }
    forall r | r in rs && Visible(r, series, at, lag)
      ensures exists q :: q in History(rs, series, at, lag) && q.date == r.date
    {
      VisibleIsUsable(r, series, at, lag);
      ByDateHolds(latest, latest[r.date]);
    }
  }

  /** Data that was all known by a time, and the view of it at a decision. */
  class PointInTimeView {
    const revisions: seq<Revision>

    constructor (revisions: seq<Revision>, asOf: Time)
      ensures this.revisions == KnownBy(revisions, asOf)
    {
      this.revisions := KnownBy(revisions, asOf);
    }

    method HistoryAt(series: string, at: Time, lag: int) returns (rs: seq<Revision>)
      ensures rs == History(revisions, series, at, lag)
    {
      hide Usable, Newer;
      var latest: map<Date, Revision> := map[];
      for i := 0 to |revisions|
        invariant latest == Latest(revisions[..i], series, at, lag)
      {
        var item := revisions[i];
        assert revisions[..i + 1][..i] == revisions[..i];
        if Usable(item, series, at, lag) && (item.date !in latest || Newer(item, latest[item.date])) {
          latest := latest[item.date := item];
        }
      }
      assert revisions[..|revisions|] == revisions;
      rs := [];
      var rest := latest;
      while |rest.Keys| != 0
        invariant rs + ByDate(rest) == ByDate(latest)
        decreases |rest.Keys|
      {
        var d := FirstDate(rest.Keys);
        assert (rest - {d}).Keys == rest.Keys - {d};
        assert rs + ([rest[d]] + ByDate(rest - {d})) == (rs + [rest[d]]) + ByDate(rest - {d});
        rs := rs + [rest[d]];
        rest := rest - {d};
      }
    }
  }

  /** Deposits before withdrawals at one time, then by identifier. */
  predicate SortsBefore(a: CapitalEvent, b: CapitalEvent) {
    || a.usableAt < b.usableAt
    || (a.usableAt == b.usableAt
        && ((a.kind.DepositKind? && b.kind.WithdrawalKind?) || (a.kind == b.kind && Before(a.id, b.id))))
  }

  /** Insertion behind everything that does not sort after the event. */
  function InsertEvent(es: seq<CapitalEvent>, e: CapitalEvent): seq<CapitalEvent> {
    if es == [] || !SortsBefore(e, es[|es| - 1]) then es + [e]
    else InsertEvent(es[..|es| - 1], e) + [es[|es| - 1]]
  }

  /** The events in sort order; equal keys keep their order. */
  function Sorted(es: seq<CapitalEvent>): seq<CapitalEvent> {
    if es == [] then [] else InsertEvent(Sorted(es[..|es| - 1]), es[|es| - 1])
  }

  /** The events usable by a time. */
  function UsableBy(es: seq<CapitalEvent>, t: Time): seq<CapitalEvent> {
    if es == [] then []
    else
      var front, e := UsableBy(es[..|es| - 1], t), es[|es| - 1];
      if e.usableAt <= t then front + [e] else front
  }

  lemma UsableBySnoc(es: seq<CapitalEvent>, e: CapitalEvent, t: Time)
    ensures UsableBy(es + [e], t) == UsableBy(es, t) + (if e.usableAt <= t then [e] else [])
  {
    assert (es + [e])[..|es|] == es;
  }

  lemma {:induction false} UsableByIs(es: seq<CapitalEvent>, t: Time, e: CapitalEvent)
    ensures e in UsableBy(es, t) <==> e in es && e.usableAt <= t
  {
    if es != [] {
      UsableByIs(es[..|es| - 1], t, e);
      assert es == es[..|es| - 1] + [es[|es| - 1]];
    }
  }

  lemma {:induction false} UsableByInsert(es: seq<CapitalEvent>, e: CapitalEvent, t: Time)
    ensures UsableBy(InsertEvent(es, e), t)
         == if e.usableAt <= t then InsertEvent(UsableBy(es, t), e) else UsableBy(es, t)
  {
    hide Before;
    UsableBySnoc(es, e, t);
    if es != [] {
      var front, last := es[..|es| - 1], es[|es| - 1];
      assert es == front + [last];
      UsableBySnoc(front, last, t);
      if SortsBefore(e, last) {
        UsableByInsert(front, e, t);
        UsableBySnoc(InsertEvent(front, e), last, t);
        assert (UsableBy(front, t) + [last])[..|UsableBy(front, t)|] == UsableBy(front, t);
      }
    }
  }

  /** Sorting what is usable is what is usable of the sorted. */
  lemma {:induction false} SortedUsable(es: seq<CapitalEvent>, t: Time)
    ensures UsableBy(Sorted(es), t) == Sorted(UsableBy(es, t))
  {
    if es != [] {
      var front, e := es[..|es| - 1], es[|es| - 1];
      SortedUsable(front, t);
      UsableByInsert(Sorted(front), e, t);
      var usable := UsableBy(front, t);
      assert (usable + [e])[..|usable|] == usable;
    }
  }

  lemma {:induction false} UsableByEarlier(es: seq<CapitalEvent>, s: Time, t: Time)
    requires s <= t
    ensures UsableBy(UsableBy(es, t), s) == UsableBy(es, s)
  {
    if es != [] {
      UsableByEarlier(es[..|es| - 1], s, t);
      UsableBySnoc(UsableBy(es[..|es| - 1], t), es[|es| - 1], s);
    }
  }

  ghost predicate InTimeOrder(es: seq<CapitalEvent>) {
    forall i, j | 0 <= i < j < |es| :: es[i].usableAt <= es[j].usableAt
  }

  lemma {:induction false} InsertKeepsTimeOrder(es: seq<CapitalEvent>, e: CapitalEvent)
    requires InTimeOrder(es)
    ensures InTimeOrder(InsertEvent(es, e))
    ensures forall x :: x in InsertEvent(es, e) <==> x in es || x == e
  {
    hide Before;
    if es != [] && SortsBefore(e, es[|es| - 1]) {
      var front, last := es[..|es| - 1], es[|es| - 1];
      InsertKeepsTimeOrder(front, e);
      assert es == front + [last];
      var inner := InsertEvent(front, e);
      forall i | 0 <= i < |inner|
        ensures inner[i].usableAt <= last.usableAt
      {
        assert inner[i] in inner;
      }
    }
  }

  lemma {:induction false} SortedIsInTimeOrder(es: seq<CapitalEvent>)
    ensures InTimeOrder(Sorted(es))
  {
    if es != [] {
      SortedIsInTimeOrder(es[..|es| - 1]);
      InsertKeepsTimeOrder(Sorted(es[..|es| - 1]), es[|es| - 1]);
    }
  }

  /** In time order, what is usable by a time comes first. */
  lemma {:induction false} UsableIsPrefix(es: seq<CapitalEvent>, t: Time)
    requires InTimeOrder(es)
    ensures UsableBy(es, t) <= es
    ensures forall i | |UsableBy(es, t)| <= i < |es| :: es[i].usableAt > t
    ensures forall i | 0 <= i < |UsableBy(es, t)| :: es[i].usableAt <= t
  {
    if es != [] {
      var front, last := es[..|es| - 1], es[|es| - 1];
      UsableIsPrefix(front, t);
      if last.usableAt <= t {
        assert UsableBy(front, t) == front;
      }
    }
  }

  /** The order of a text: the first character that differs decides, and a prefix comes first. */
  lemma {:induction false} BeforeIsLexicographic(a: string, b: string)
    ensures Before(a, b) <==> exists n :: PrecedesAt(a, b, n)
  {
    if a != [] && b != [] && a[0] == b[0] {
      BeforeIsLexicographic(a[1..], b[1..]);
      if Before(a[1..], b[1..]) {
        var n :| PrecedesAt(a[1..], b[1..], n);
        assert a[..n + 1] == [a[0]] + a[1..][..n] && b[..n + 1] == [b[0]] + b[1..][..n];
        assert PrecedesAt(a, b, n + 1);
      }
      if n :| PrecedesAt(a, b, n) {
        assert n > 0;
        assert a[1..][..n - 1] == a[..n][1..] && b[1..][..n - 1] == b[..n][1..];
        assert PrecedesAt(a[1..], b[1..], n - 1);
      }
    } else if b != [] && (a == [] || a[0] < b[0]) {
      assert PrecedesAt(a, b, 0);
    } else {
      forall n
        ensures !PrecedesAt(a, b, n)
      {
        FirstAgrees(a, b, n);
      }
    }
  }

  lemma FirstAgrees(a: string, b: string, n: int)
    ensures PrecedesAt(a, b, n) && n > 0 ==> a[0] == b[0]
  {
    if PrecedesAt(a, b, n) && n > 0 {
      assert a[0] == a[..n][0] && b[0] == b[..n][0];
    }
  }

  ghost predicate PrecedesAt(a: string, b: string, n: int) {
    0 <= n <= |a| && n < |b| && a[..n] == b[..n] && (n == |a| || a[n] < b[n])
  }

  /** No event of the list is later than the next, and at one time deposits come first, then smaller identifiers. */
  ghost predicate InOrderOfUse(es: seq<CapitalEvent>) {
    forall i, j | 0 <= i < j < |es| ::
      && es[i].usableAt <= es[j].usableAt
      && (es[i].usableAt == es[j].usableAt && es[j].kind.DepositKind? ==> es[i].kind.DepositKind?)
      && (es[i].usableAt == es[j].usableAt && es[i].kind == es[j].kind ==> !Before(es[j].id, es[i].id))
  }

  lemma NotBeforeIsTransitive(a: string, b: string, c: string)
    requires !Before(b, a) && !Before(c, b)
    ensures !Before(c, a)
  {
    BeforeIsTotal(a, b);
    BeforeIsTotal(b, c);
    if Before(a, b) && Before(b, c) {
      BeforeIsTransitive(a, b, c);
    }
    BeforeIsTotal(a, c);
  }

  /** What holds between an event and the last of an ordered list holds with the ones before it. */
  lemma LastOrders(es: seq<CapitalEvent>, e: CapitalEvent)
    requires InOrderOfUse(es)
    requires es == [] || InOrderOfUse([es[|es| - 1], e])
    ensures InOrderOfUse(es + [e])
  {
    hide Before;
    if es != [] {
      var last := es[|es| - 1];
      assert [last, e][0] == last && [last, e][1] == e;
      forall i | 0 <= i < |es|
        ensures InOrderOfUse([es[i], e])
      {
        if !Before(last.id, es[i].id) && !Before(e.id, last.id) {
          NotBeforeIsTransitive(es[i].id, last.id, e.id);
        }
      }
      forall i | 0 <= i < |es|
        ensures es[i].usableAt <= e.usableAt
        ensures es[i].usableAt == e.usableAt && e.kind.DepositKind? ==> es[i].kind.DepositKind?
        ensures es[i].usableAt == e.usableAt && es[i].kind == e.kind ==> !Before(e.id, es[i].id)
      {
        var pair := [es[i], e];
        assert pair[0] == es[i] && pair[1] == e;
      }
    }
  }

  lemma PairInOrder(a: CapitalEvent, b: CapitalEvent)
    ensures !SortsBefore(b, a) ==> InOrderOfUse([a, b])
    ensures SortsBefore(b, a) ==> InOrderOfUse([b, a])
  {
    BeforeIsTotal(a.id, b.id);
  }

  /** Insertion keeps the order of use, and adds one event. */
  lemma {:induction false} InsertKeepsOrder(es: seq<CapitalEvent>, e: CapitalEvent)
    requires InOrderOfUse(es)
    ensures InOrderOfUse(InsertEvent(es, e)) && multiset(InsertEvent(es, e)) == multiset(es) + multiset{e}
    ensures var next := InsertEvent(es, e);
            next[|next| - 1] == if es == [] || !SortsBefore(e, es[|es| - 1]) then e else es[|es| - 1]
  {
    hide SortsBefore, InOrderOfUse;
    if es == [] || !SortsBefore(e, es[|es| - 1]) {
      if es != [] {
        PairInOrder(es[|es| - 1], e);
      }
      LastOrders(es, e);
    } else {
      var front, last := es[..|es| - 1], es[|es| - 1];
      assert es == front + [last];
      FrontInOrder(es);
      InsertKeepsOrder(front, e);
      PairInOrder(last, e);
      if front != [] {
        AdjacentInOrder(es);
      }
      LastOrders(InsertEvent(front, e), last);
    }
  }

  lemma FrontInOrder(es: seq<CapitalEvent>)
    requires es != [] && InOrderOfUse(es)
    ensures InOrderOfUse(es[..|es| - 1])
  {
    hide Before;
  }

  lemma AdjacentInOrder(es: seq<CapitalEvent>)
    requires |es| > 1 && InOrderOfUse(es)
    ensures InOrderOfUse([es[|es| - 2], es[|es| - 1]])
  {
    hide Before;
  }

  /** The sorted events are the events, in their order of use. */
  lemma {:induction false} SortedIsInOrder(es: seq<CapitalEvent>)
    ensures InOrderOfUse(Sorted(es)) && multiset(Sorted(es)) == multiset(es)
  {
    if es != [] {
      var front, last := es[..|es| - 1], es[|es| - 1];
      assert es == front + [last];
      SortedIsInOrder(front);
      InsertKeepsOrder(Sorted(front), last);
    }
  }
}
