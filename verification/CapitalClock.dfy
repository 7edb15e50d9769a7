/**
 * The latest capital event. The state keeps no list of withdrawals; it matches
 * commitments out of the timeline and takes what is left over. That is exactly
 * the latest deposit, withdrawal or transfer withdrawal of the journal.
 */
module CapitalClock {
  import opened Prelude
  import opened LedgerEvents
  import opened CapitalTimeline
  import opened LedgerReplay
  import opened CapitalConservation
  import opened PurchaseChain
  import opened TaggedTimeline
  import opened SettlementProgress

  /** A debit as the timeline shows it: its time and its amount. */
  type Key = (Time, int)

  predicate IsDeposit(kind: EventKind) {
    kind.AuthoritativeDeposit? || kind.AuthoritativeParentFunding?
  }

  predicate IsWithdrawal(kind: EventKind) {
    kind.AuthoritativeWithdrawal?
  }

  predicate IsTransfer(kind: EventKind) {
    kind.AuthoritativeTransferWithdrawal?
  }

  predicate IsExternal(kind: EventKind) {
    IsDeposit(kind) || IsWithdrawal(kind) || IsTransfer(kind)
  }

  /** When capital came in from outside or left for outside. */
  function ExternalTimes(events: seq<Event>): set<Time> {
    set e | e in events && IsExternal(e.kind) :: e.at
  }

  predicate IsLatest(latest: Option<Time>, times: set<Time>) {
    if latest.None? then times == {}
    else latest.value in times && forall t | t in times :: t <= latest.value
  }

  function CountAt(counts: map<Key, nat>, key: Key): nat {
    if key in counts then counts[key] else 0
  }

  function Having(commitments: map<Id, Commitment>, key: Key): set<Id> {
    set k | k in commitments && commitments[k].at == key.0 && commitments[k].committed == key.1
  }

  /** The counts say how many commitments there are of each time and amount. */
  ghost predicate Counts(counts: map<Key, nat>, commitments: map<Id, Commitment>) {
    forall key :: CountAt(counts, key) == |Having(commitments, key)|
  }

  /** The times of the pure debits that no commitment accounts for, in timeline order. */
  function Unmatched(timeline: seq<Entry>, counts: map<Key, nat>): set<Time> {
    if timeline == [] then {}
    else
      var e := timeline[0];
      if e.credit != 0 || e.debit == 0 then Unmatched(timeline[1..], counts)
      else
        var key: Key := (e.at, e.debit);
        if CountAt(counts, key) > 0 then Unmatched(timeline[1..], counts[key := counts[key] - 1])
        else {e.at} + Unmatched(timeline[1..], counts)
  }

  function DepositTimes(c: Capital): set<Time> {
    set d | d in c.deposits :: c.deposits[d].at
  }

  function TransferTimes(c: Capital): set<Time> {
    if c.lastTransferWithdrawalAt.Some? then {c.lastTransferWithdrawalAt.value} else {}
  }

  lemma OneLater(latest: Option<Time>, times: set<Time>, t: Time)
    requires IsLatest(latest, times)
    ensures IsLatest(Some(MaxOption(latest, t)), times + {t})
  {
  }

  method LatestUnmatched(timeline: seq<Entry>, counts: map<Key, nat>) returns (latest: Option<Time>)
    ensures IsLatest(latest, Unmatched(timeline, counts))
  {
    var left := counts;
    ghost var seen: set<Time> := {};
    latest := None;
    var i := 0;
    while i < |timeline|
      invariant 0 <= i <= |timeline|
      invariant IsLatest(latest, seen)
      invariant seen + Unmatched(timeline[i..], left) == Unmatched(timeline, counts)
    {
      var e := timeline[i];
      assert timeline[i..][1..] == timeline[i + 1..];
      if e.credit == 0 && e.debit != 0 {
        var key: Key := (e.at, e.debit);
        if key in left && left[key] > 0 {
          left := left[key := left[key] - 1];
        } else {
          seen := seen + {e.at};
          latest := Some(MaxOption(latest, e.at));
        }
      }
      i := i + 1;
    }
  }

  method LatestDeposit(deposits: map<Id, Deposit>, start: Option<Time>, ghost before: set<Time>)
    returns (latest: Option<Time>)
    requires IsLatest(start, before)
    ensures IsLatest(latest, before + set d | d in deposits :: deposits[d].at)
  {
    latest := start;
    var todo := deposits.Keys;
    ghost var seen := before;
    while todo != {}
      invariant todo <= deposits.Keys
      invariant seen == before + set d | d in deposits && d !in todo :: deposits[d].at
      invariant IsLatest(latest, seen)
      decreases todo
    {
      var d :| d in todo;
      todo := todo - {d};
      latest := Some(MaxOption(latest, deposits[d].at));
      seen := seen + {deposits[d].at};
    }
    assert seen == before + set d | d in deposits :: deposits[d].at;
  }

  method CountCommitments(commitments: map<Id, Commitment>) returns (counts: map<Key, nat>)
    ensures Counts(counts, commitments)
  {
    counts := map[];
    var todo := commitments.Keys;
    ghost var done: map<Id, Commitment> := map[];
    assert forall key :: Having(done, key) == {};
    while todo != {}
      invariant todo <= commitments.Keys
      invariant done == map k | k in commitments.Keys - todo :: commitments[k]
      invariant Counts(counts, done)
      decreases todo
    {
      var k :| k in todo;
      var key: Key := (commitments[k].at, commitments[k].committed);
      OneMoreCommitment(counts, done, k, commitments[k]);
      counts := counts[key := CountAt(counts, key) + 1];
      done := done[k := commitments[k]];
      todo := todo - {k};
    }
    assert done == commitments;
  }

  lemma OneMoreCommitment(counts: map<Key, nat>, done: map<Id, Commitment>, k: Id, added: Commitment)
    requires Counts(counts, done) && k !in done
    ensures var key: Key := (added.at, added.committed);
            Counts(counts[key := CountAt(counts, key) + 1], done[k := added])
  {
    var key: Key := (added.at, added.committed);
    var more := counts[key := CountAt(counts, key) + 1];
    forall other: Key
      ensures CountAt(more, other) == |Having(done[k := added], other)|
    {
      HavingOneMore(done, k, added, other);
      assert CountAt(counts, other) == |Having(done, other)|;
    }
  }

  lemma HavingOneMore(done: map<Id, Commitment>, k: Id, added: Commitment, key: Key)
    requires k !in done
    ensures |Having(done[k := added], key)| == |Having(done, key)| + if key == (added.at, added.committed) then 1 else 0
  {
    var own := if key == (added.at, added.committed) then {k} else {};
    assert Having(done[k := added], key) == Having(done, key) + own;
    assert k !in Having(done, key);
  }

  /** How many pure debits of a time and amount the timeline holds. */
  function PureDebits(timeline: seq<Entry>, key: Key): nat {
    if timeline == [] then 0
    else (if timeline[0].credit == 0 && (timeline[0].at, timeline[0].debit) == key then 1 else 0)
         + PureDebits(timeline[1..], key)
  }

  /** A time is left over if and only if some debit then is more frequent than its commitments. */
  lemma {:induction false} UnmatchedIsExcess(timeline: seq<Entry>, counts: map<Key, nat>, t: Time)
    ensures t in Unmatched(timeline, counts)
       <==> exists amount :: amount > 0 && PureDebits(timeline, (t, amount)) > CountAt(counts, (t, amount))
  {
    if timeline != [] {
      var e, rest := timeline[0], timeline[1..];
      var key: Key := (e.at, e.debit);
      if e.credit != 0 || e.debit == 0 {
        UnmatchedIsExcess(rest, counts, t);
        assert forall amount :: amount > 0 ==>
            PureDebits(timeline, (t, amount)) == PureDebits(rest, (t, amount));
      } else if CountAt(counts, key) > 0 {
        var fewer := counts[key := counts[key] - 1];
        UnmatchedIsExcess(rest, fewer, t);
        assert forall amount :: amount > 0 ==>
            PureDebits(timeline, (t, amount)) - CountAt(counts, (t, amount))
            == PureDebits(rest, (t, amount)) - CountAt(fewer, (t, amount));
      } else {
        UnmatchedIsExcess(rest, counts, t);
        if t == e.at {
          assert PureDebits(timeline, (t, e.debit)) > CountAt(counts, (t, e.debit));
        } else {
          assert forall amount :: amount > 0 ==>
              PureDebits(timeline, (t, amount)) == PureDebits(rest, (t, amount));
        }
      }
    }
  }

  function TaggedDebits(tagged: seq<Tagged>, key: Key, commits: bool): nat {
    if tagged == [] then 0
    else
      (if tagged[0].tag.Commit? == commits && tagged[0].entry.credit == 0
          && (tagged[0].entry.at, tagged[0].entry.debit) == key then 1 else 0)
      + TaggedDebits(tagged[1..], key, commits)
  }

  lemma {:induction false} TaggedDebitsInsert(tagged: seq<Tagged>, x: Tagged, key: Key, commits: bool)
    ensures TaggedDebits(Insert(tagged, x), key, commits)
         == TaggedDebits(tagged, key, commits) + TaggedDebits([x], key, commits)
  {
    if tagged != [] && tagged[0].entry.at <= x.entry.at {
      TaggedDebitsInsert(tagged[1..], x, key, commits);
      assert Insert(tagged, x)[1..] == Insert(tagged[1..], x);
    } else {
      assert ([x] + tagged)[1..] == tagged;
    }
    assert TaggedDebits([x][1..], key, commits) == 0;
  }

  /** Pure debits are commitments or withdrawals. */
  lemma {:induction false} DebitsSplit(tagged: seq<Tagged>, key: Key)
    ensures PureDebits(Untag(tagged), key) == TaggedDebits(tagged, key, true) + TaggedDebits(tagged, key, false)
  {
    if tagged != [] {
      DebitsSplit(tagged[1..], key);
      assert Untag(tagged)[1..] == Untag(tagged[1..]);
    }
  }

  lemma {:induction false} DebitsWitness(tagged: seq<Tagged>, key: Key, commits: bool)
    ensures TaggedDebits(tagged, key, commits) > 0
       <==> exists x :: x in tagged && x.tag.Commit? == commits && x.entry.credit == 0
                        && (x.entry.at, x.entry.debit) == key
  {
    if tagged != [] {
      DebitsWitness(tagged[1..], key, commits);
      assert forall x :: x in tagged <==> x == tagged[0] || x in tagged[1..];
    }
  }

  lemma {:induction false} InsertElements(tagged: seq<Tagged>, x: Tagged)
    ensures forall y :: y in Insert(tagged, x) <==> y in tagged || y == x
  {
    if tagged != [] && tagged[0].entry.at <= x.entry.at {
      InsertElements(tagged[1..], x);
      assert forall y :: y in tagged <==> y == tagged[0] || y in tagged[1..];
    }
  }

  /** Every entry has the sign its reason gives it. */
  predicate SignsFit(tagged: seq<Tagged>) {
    forall x | x in tagged :: if x.tag.Admit? || x.tag.Settle? then x.entry.credit > 0 else x.entry.credit == 0
  }

  /** The times of the withdrawals that took admitted capital. */
  function DebitTimes(tagged: seq<Tagged>): set<Time> {
    set x | x in tagged && x.tag.Withdraw? && x.entry.debit > 0 :: x.entry.at
  }

  function TimesOf(events: seq<Event>, kinds: EventKind -> bool): set<Time> {
    set e | e in events && kinds(e.kind) :: e.at
  }

  /** As many commit entries of a time and amount as commitments. */
  ghost predicate CommitsCounted(tagged: seq<Tagged>, c: Capital) {
    forall key :: TaggedDebits(tagged, key, true) == |Having(c.commitments, key)|
  }

  /** The state's deposits, debits and last transfer carry the journal's external times. */
  ghost predicate TimesFit(tagged: seq<Tagged>, events: seq<Event>, c: Capital) {
    && DepositTimes(c) == TimesOf(events, IsDeposit)
    && IsLatest(c.lastTransferWithdrawalAt, TimesOf(events, IsTransfer))
    && DebitTimes(tagged) <= ExternalTimes(events)
    && TimesOf(events, IsWithdrawal) <= DebitTimes(tagged)
  }

  /** Over such a state the matching finds exactly the latest external time. */
  lemma MatchingFindsLatest(
    tagged: seq<Tagged>, events: seq<Event>, c: Capital, counts: map<Key, nat>, latest: Option<Time>)
    requires TagsFit(tagged, c) && SignsFit(tagged) && CommitsCounted(tagged, c) && TimesFit(tagged, events, c)
    requires Counts(counts, c.commitments)
    requires IsLatest(latest, DepositTimes(c) + Unmatched(c.timeline, counts) + TransferTimes(c))
    ensures IsLatest(latest, ExternalTimes(events))
  {
    UnmatchedIsWithdrawn(tagged, c, counts);
    ExternalInThree(events);
    hide TagsFit, SignsFit, CommitsCounted, Counts, Unmatched, ExternalTimes, TimesOf, DebitTimes, DepositTimes;
    LatestWithTransfers(c.lastTransferWithdrawalAt, TimesOf(events, IsTransfer), DepositTimes(c) + DebitTimes(tagged),
                        ExternalTimes(events), latest);
  }

  lemma ExternalInThree(events: seq<Event>)
    ensures ExternalTimes(events)
         == TimesOf(events, IsDeposit) + TimesOf(events, IsWithdrawal) + TimesOf(events, IsTransfer)
    ensures ExternalTimes(events) == TimesOf(events, IsExternal)
  {
  }

  /** The last transfer stands for all transfers. */
  lemma LatestWithTransfers(
    last: Option<Time>, transfers: set<Time>, others: set<Time>, all: set<Time>, latest: Option<Time>)
    requires IsLatest(last, transfers) && transfers <= all && others <= all <= others + transfers
    requires IsLatest(latest, others + if last.Some? then {last.value} else {})
    ensures IsLatest(latest, all)
  {
  }

  lemma UnmatchedIsWithdrawn(tagged: seq<Tagged>, c: Capital, counts: map<Key, nat>)
    requires Untag(tagged) == c.timeline && SignsFit(tagged) && CommitsCounted(tagged, c)
    requires Counts(counts, c.commitments)
    ensures Unmatched(c.timeline, counts) == DebitTimes(tagged)
  {
    forall t: Time
      ensures t in Unmatched(c.timeline, counts) <==> t in DebitTimes(tagged)
    {
      UnmatchedIsExcess(c.timeline, counts, t);
      forall amount: int
        ensures PureDebits(c.timeline, (t, amount)) > CountAt(counts, (t, amount))
           <==> exists x :: x in tagged && !x.tag.Commit? && x.entry.credit == 0
                            && (x.entry.at, x.entry.debit) == (t, amount)
      {
        var key: Key := (t, amount);
        DebitsSplit(tagged, key);
        DebitsWitness(tagged, key, false);
        assert CountAt(counts, key) == |Having(c.commitments, key)| == TaggedDebits(tagged, key, true);
      }
      if t in DebitTimes(tagged) {
        var x :| x in tagged && x.tag.Withdraw? && x.entry.debit > 0 && x.entry.at == t;
        assert PureDebits(c.timeline, (t, x.entry.debit)) > CountAt(counts, (t, x.entry.debit));
      }
    }
  }

  lemma TimesSnoc(events: seq<Event>, event: Event, kinds: EventKind -> bool)
    ensures TimesOf(events + [event], kinds)
         == TimesOf(events, kinds) + if kinds(event.kind) then {event.at} else {}
  {
    assert forall e :: e in events + [event] <==> e in events || e == event;
  }

  /** The entry an event adds to the tagged timeline, if it adds one. */
  function AddedTag(c: Capital, event: Event): Option<Tagged> {
    match event.kind
    case DepositAdmission(_, amount) => Some(Tagged(Entry(event.at, amount, 0), Admit))
    case AuthoritativeWithdrawal(amount) => Some(Tagged(Entry(event.at, 0, amount), Withdraw))
    case AuthoritativeTransferWithdrawal(unadmitted, amount, _, _) =>
      var back := ReturnUnadmitted(c.deposits, event.at, unadmitted, 0);
      if back.Ok? && back.value.1 <= amount then
        Some(Tagged(Entry(event.at, 0, amount - back.value.1), Withdraw))
      else None
    case CapitalCommitted(k, amount) => Some(Tagged(Entry(event.at, 0, amount), Commit(k)))
    case CapitalSettled(k, debited) =>
      if k in c.commitments then Some(Tagged(Entry(event.at, c.commitments[k].committed, debited), Settle(k)))
      else None
    case _ => None
  }

  lemma NextTagsAdds(tagged: seq<Tagged>, c: Capital, event: Event)
    ensures NextTags(tagged, c, event)
         == if AddedTag(c, event).Some? then Insert(tagged, AddedTag(c, event).value) else tagged
  {
    hide ReturnUnadmitted, Insert;
  }

  lemma SignsKept(tagged: seq<Tagged>, c: Capital, event: Event)
    requires SignsFit(tagged)
    requires ValidateEvent(event).Pass?
    requires forall k :: k in c.commitments ==> c.commitments[k].committed > 0
    ensures SignsFit(NextTags(tagged, c, event))
  {
    NextTagsAdds(tagged, c, event);
    var x := AddedTag(c, event);
    hide NextTags, Insert, ReturnUnadmitted;
    if x.Some? {
      InsertElements(tagged, x.value);
    }
  }

  /** A commitment event adds one commitment of its time and amount; every other event adds none. */
  lemma HavingAfter(c: Capital, p: Purchases, event: Event, key: Key)
    requires ApplyCapital(c, p, event).Ok?
    ensures |Having(ApplyCapital(c, p, event).value.commitments, key)|
         == |Having(c.commitments, key)|
            + if event.kind.CapitalCommitted? && key == (event.at, event.kind.amount) then 1 else 0
  {
    hide RecordTimelineEntry, LinkedDecision, RecordedCosts, NoLaterActivity, ReturnUnadmitted;
    var next := ApplyCapital(c, p, event).value;
    if event.kind.CapitalCommitted? {
      HavingOneMore(c.commitments, event.kind.commitmentId, next.commitments[event.kind.commitmentId], key);
    } else {
      assert Having(next.commitments, key) == Having(c.commitments, key);
    }
  }

  lemma CommitsKept(tagged: seq<Tagged>, c: Capital, p: Purchases, event: Event)
    requires CommitsCounted(tagged, c)
    requires ApplyCapital(c, p, event).Ok?
    ensures CommitsCounted(NextTags(tagged, c, event), ApplyCapital(c, p, event).value)
  {
    var next := ApplyCapital(c, p, event).value;
    var x := AddedTag(c, event);
    NextTagsAdds(tagged, c, event);
    hide NextTags, Insert, ReturnUnadmitted, ApplyCapital, Having;
    forall key: Key
      ensures TaggedDebits(NextTags(tagged, c, event), key, true) == |Having(next.commitments, key)|
    {
      HavingAfter(c, p, event, key);
      assert TaggedDebits(tagged, key, true) == |Having(c.commitments, key)|;
      if x.Some? {
        TaggedDebitsInsert(tagged, x.value, key, true);
        assert TaggedDebits([x.value][1..], key, true) == 0;
      }
    }
  }

  /** Only a deposit event adds a deposit time; admissions and returns keep every deposit's own. */
  lemma DepositTimesKept(c: Capital, p: Purchases, event: Event)
    requires event.id !in c.deposits
    requires forall d :: d in c.deposits ==> DepositCovered(c.deposits[d])
    requires ApplyCapital(c, p, event).Ok?
    ensures DepositTimes(ApplyCapital(c, p, event).value)
         == DepositTimes(c) + if IsDeposit(event.kind) then {event.at} else {}
  {
    hide RecordTimelineEntry, LinkedDecision, RecordedCosts, NoLaterActivity, ReturnUnadmitted, DepositTimes;
    var next := ApplyCapital(c, p, event).value;
    if IsDeposit(event.kind) {
      FundingAddsTime(c, event.id, event.at, event.kind.amount);
    } else {
      if event.kind.AuthoritativeTransferWithdrawal? {
        ReturnsStayCovered(c.deposits, event.at, event.kind.unadmitted, 0);
      }
      SameDepositTimes(c, next);
    }
  }

  lemma FundingAddsTime(c: Capital, id: Id, at: Time, amount: u64)
    requires id !in c.deposits
    ensures DepositTimes(RecordFunding(c, id, at, amount)) == DepositTimes(c) + {at}
  {
    var next := RecordFunding(c, id, at, amount);
    assert next.deposits[id].at == at;
    assert forall d :: d in c.deposits ==> d in next.deposits && next.deposits[d] == c.deposits[d];
  }

  lemma SameDepositTimes(c: Capital, next: Capital)
    requires next.deposits.Keys == c.deposits.Keys
    requires forall d :: d in c.deposits ==> next.deposits[d].at == c.deposits[d].at
    ensures DepositTimes(next) == DepositTimes(c)
  {
  }

  lemma LastTransferKept(c: Capital, p: Purchases, event: Event)
    requires ApplyCapital(c, p, event).Ok?
    ensures ApplyCapital(c, p, event).value.lastTransferWithdrawalAt
         == if IsTransfer(event.kind) then Some(MaxOption(c.lastTransferWithdrawalAt, event.at))
            else c.lastTransferWithdrawalAt
  {
    hide RecordTimelineEntry, LinkedDecision, RecordedCosts, NoLaterActivity, ReturnUnadmitted;
  }

  lemma DebitTimesKept(tagged: seq<Tagged>, c: Capital, event: Event)
    requires ValidateEvent(event).Pass?
    ensures DebitTimes(tagged) <= DebitTimes(NextTags(tagged, c, event))
    ensures DebitTimes(NextTags(tagged, c, event)) <= DebitTimes(tagged) + {event.at}
    ensures !IsExternal(event.kind) ==> DebitTimes(NextTags(tagged, c, event)) == DebitTimes(tagged)
    ensures IsWithdrawal(event.kind) ==> event.at in DebitTimes(NextTags(tagged, c, event))
  {
    NextTagsAdds(tagged, c, event);
    var x := AddedTag(c, event);
    hide NextTags, Insert, ReturnUnadmitted;
    if x.Some? {
      InsertElements(tagged, x.value);
      assert forall y :: y in tagged ==> y in NextTags(tagged, c, event);
      if IsWithdrawal(event.kind) {
        assert x.value in NextTags(tagged, c, event) && x.value.tag.Withdraw? && x.value.entry.debit > 0;
      }
    }
  }

  lemma TimesKept(tagged: seq<Tagged>, events: seq<Event>, c: Capital, p: Purchases, event: Event)
    requires TimesFit(tagged, events, c)
    requires ValidateEvent(event).Pass? && event.id !in c.deposits
    requires forall d :: d in c.deposits ==> DepositCovered(c.deposits[d])
    requires ApplyCapital(c, p, event).Ok?
    ensures TimesFit(NextTags(tagged, c, event), events + [event], ApplyCapital(c, p, event).value)
  {
    hide NextTags, ApplyCapital, ValidateEvent, DebitTimes, DepositTimes, TimesOf, ExternalTimes;
    DepositTimesKept(c, p, event);
    LastTransferKept(c, p, event);
    DebitTimesKept(tagged, c, event);
    TimesSnoc(events, event, IsDeposit);
    TimesSnoc(events, event, IsTransfer);
    TimesSnoc(events, event, IsWithdrawal);
    TimesSnoc(events, event, IsExternal);
    ExternalInThree(events);
    ExternalInThree(events + [event]);
    if IsTransfer(event.kind) {
      OneLater(c.lastTransferWithdrawalAt, TimesOf(events, IsTransfer), event.at);
    }
    hide IsLatest;
  }

  ghost predicate ClockFits(tagged: seq<Tagged>, events: seq<Event>, c: Capital) {
    TagsFit(tagged, c) && SignsFit(tagged) && CommitsCounted(tagged, c) && TimesFit(tagged, events, c)
  }

  lemma StepKeepsClock(tagged: seq<Tagged>, events: seq<Event>, r: Replayed, event: Event)
    requires ClockFits(tagged, events, r.state.capital)
    requires Sound(r) && ChainOk(r.state.capital, r.state.purchases)
    requires Step(r, event).Ok?
    ensures ClockFits(NextTags(tagged, r.state.capital, event), events + [event], Step(r, event).value.state.capital)
  {
    var c, p := r.state.capital, r.state.purchases;
    assert forall k :: k in c.commitments ==> CommitmentOk(c.commitments[k]);
    assert forall d :: d in c.deposits ==> DepositCovered(c.deposits[d]);
    hide ChainOk, Balanced, TagsFit, SignsFit, CommitsCounted, TimesFit;
    hide NextTags, ApplyCapital, ApplyPurchase, ApplyRuntime, ValidateEvent;
    StepFits(tagged, r, event);
    SignsKept(tagged, c, event);
    CommitsKept(tagged, c, p, event);
    TimesKept(tagged, events, c, p, event);
  }

  lemma NothingClocked()
    ensures ClockFits([], [], NOTHING.state.capital)
  {
    assert forall key :: Having(map[], key) == {};
  }

  lemma {:induction false} AlwaysClocked(events: seq<Event>) returns (tagged: seq<Tagged>)
    requires Fold(events).Ok?
    ensures ClockFits(tagged, events, Fold(events).value.state.capital)
  {
    hide ClockFits, Sound, Step, ChainOk;
    if events == [] {
      tagged := [];
      NothingClocked();
    } else {
      var front, last := events[..|events| - 1], events[|events| - 1];
      var before := AlwaysClocked(front);
      AlwaysBalanced(front);
      AlwaysChained(front);
      tagged := NextTags(before, Fold(front).value.state.capital, last);
      StepKeepsClock(before, front, Fold(front).value, last);
      assert events == front + [last];
    }
  }

  /**
   * Whatever a state that a journal reaches answers, it is the latest time among
   * the deposits, withdrawals and transfer withdrawals of that journal.
   */
  lemma ClockIsExact(events: seq<Event>, counts: map<Key, nat>, latest: Option<Time>)
    requires Replay(events).Ok?
    requires Counts(counts, Replay(events).value.capital.commitments)
    requires var c := Replay(events).value.capital;
             IsLatest(latest, DepositTimes(c) + Unmatched(c.timeline, counts) + TransferTimes(c))
    ensures IsLatest(latest, ExternalTimes(events))
  {
    var tagged := AlwaysClocked(events);
    hide Fold, Counts, IsLatest;
    MatchingFindsLatest(tagged, events, Replay(events).value.capital, counts, latest);
  }

  /**
   * The latest of deposits, unmatched debits and transfers, as the state computes
   * it; for a state that a journal replays to, it is the latest time among the
   * deposits, withdrawals and transfer withdrawals of that journal.
   */
  method LastCapitalEventAt(c: Capital) returns (latest: Option<Time>)
    ensures forall events :: Replay(events).Ok? && Replay(events).value.capital == c ==>
                               IsLatest(latest, ExternalTimes(events))
    ensures exists counts :: Counts(counts, c.commitments)
              && IsLatest(latest, DepositTimes(c) + Unmatched(c.timeline, counts) + TransferTimes(c))
  {
    var counts := CountCommitments(c.commitments);
    latest := LatestUnmatched(c.timeline, counts);
    ghost var debits := Unmatched(c.timeline, counts);
    hide Counts, Unmatched;
    latest := LatestDeposit(c.deposits, latest, debits);
    if c.lastTransferWithdrawalAt.Some? {
      OneLater(latest, debits + DepositTimes(c), c.lastTransferWithdrawalAt.value);
      latest := Some(MaxOption(latest, c.lastTransferWithdrawalAt.value));
    }
    assert debits + DepositTimes(c) + TransferTimes(c) == DepositTimes(c) + debits + TransferTimes(c);
    hide IsLatest, Replay, ExternalTimes;
    forall events | Replay(events).Ok? && Replay(events).value.capital == c
      ensures IsLatest(latest, ExternalTimes(events))
    {
      ClockIsExact(events, counts, latest);
    }
  }
}
