/**
 * The capital timeline with the reason behind each entry. The ledger itself
 * keeps only times and amounts; the reasons are what a journal says about them,
 * and they bound every intermediate balance.
 */
module TaggedTimeline {
  import opened Prelude
  import opened LedgerEvents
  import opened CapitalTimeline

  datatype Tag = Admit | Withdraw | Commit(id: Id) | Settle(id: Id)

  datatype Tagged = Tagged(entry: Entry, tag: Tag)

  function Untag(tagged: seq<Tagged>): seq<Entry> {
    if tagged == [] then [] else [tagged[0].entry] + Untag(tagged[1..])
  }

  lemma {:induction false} UntagAt(tagged: seq<Tagged>)
    ensures |Untag(tagged)| == |tagged|
    ensures forall i | 0 <= i < |tagged| :: Untag(tagged)[i] == tagged[i].entry
  {
    if tagged != [] {
      UntagAt(tagged[1..]);
    }
  }

  function Insert(tagged: seq<Tagged>, x: Tagged): seq<Tagged> {
    if tagged == [] || x.entry.at < tagged[0].entry.at then [x] + tagged
    else [tagged[0]] + Insert(tagged[1..], x)
  }

  lemma {:induction false} UntagInsert(tagged: seq<Tagged>, x: Tagged)
    ensures Untag(Insert(tagged, x)) == InsertByTime(Untag(tagged), x.entry)
  {
    var entries := Untag(tagged);
    if tagged != [] && tagged[0].entry.at <= x.entry.at {
      UntagInsert(tagged[1..], x);
      assert entries[1..] == Untag(tagged[1..]);
      assert Insert(tagged, x)[1..] == Insert(tagged[1..], x);
      assert Untag(Insert(tagged, x)) == [tagged[0].entry] + InsertByTime(entries[1..], x.entry);
    } else {
      assert ([x] + tagged)[1..] == tagged;
      assert InsertByTime(entries, x.entry) == [x.entry] + entries;
      assert Untag([x] + tagged) == [x.entry] + entries;
    }
  }

  /** How much was ever admitted. */
  function AdmitSum(tagged: seq<Tagged>): int {
    if tagged == [] then 0
    else (if tagged[0].tag.Admit? then tagged[0].entry.credit else 0) + AdmitSum(tagged[1..])
  }

  lemma {:induction false} AdmitSumInsert(tagged: seq<Tagged>, x: Tagged)
    ensures AdmitSum(Insert(tagged, x)) == AdmitSum(tagged) + if x.tag.Admit? then x.entry.credit else 0
  {
    if tagged != [] && tagged[0].entry.at <= x.entry.at {
      AdmitSumInsert(tagged[1..], x);
      assert Insert(tagged, x)[1..] == Insert(tagged[1..], x);
    } else {
      assert ([x] + tagged)[1..] == tagged;
    }
  }

  /** What is open after one entry: a commitment opens its amount, its settlement closes it. */
  function Open(open: map<Id, int>, x: Tagged): map<Id, int> {
    match x.tag
    case Commit(id) => open[id := x.entry.debit]
    case Settle(id) => open - {id}
    case _ => open
  }

  /** An entry that fits what is open before it: a settlement refunds an open commitment exactly. */
  predicate Fits(open: map<Id, int>, x: Tagged) {
    match x.tag
    case Admit => x.entry.debit == 0
    case Withdraw => x.entry.credit == 0
    case Commit(id) => id !in open && x.entry.credit == 0
    case Settle(id) => id in open && open[id] == x.entry.credit && x.entry.debit <= x.entry.credit
  }

  predicate WellMatched(tagged: seq<Tagged>, open: map<Id, int>) {
    tagged == [] || (Fits(open, tagged[0]) && WellMatched(tagged[1..], Open(open, tagged[0])))
  }

  /**
   * Money that is open was admitted before, so no intermediate balance of a
   * well-matched timeline exceeds the admitted total: overflow cannot happen.
   */
  lemma {:induction false} NeverOverflows(tagged: seq<Tagged>, open: map<Id, int>, balance: u64)
    requires WellMatched(tagged, open)
    requires Covered(Untag(tagged), balance)
    requires forall id :: id in open ==> open[id] >= 0
    requires balance + SumOf(open) + AdmitSum(tagged) <= U64_MAX
    ensures RunTimeline(Untag(tagged), balance).Ok?
  {
    if tagged != [] {
      var x := tagged[0];
      AdmitSumNonNegative(tagged[1..]);
      SumNonNegative(open);
      match x.tag {
        case Commit(id) => SumPut(open, id, x.entry.debit);
        case Settle(id) => SumTake(open, id);
        case _ =>
      }
      assert Untag(tagged)[1..] == Untag(tagged[1..]);
      NeverOverflows(tagged[1..], Open(open, x), balance + x.entry.credit - x.entry.debit);
    }
  }

  lemma {:induction false} AdmitSumNonNegative(tagged: seq<Tagged>)
    ensures AdmitSum(tagged) >= 0
  {
    if tagged != [] {
      AdmitSumNonNegative(tagged[1..]);
    }
  }

  predicate Mentions(x: Tagged, id: Id) {
    x.tag == Commit(id) || x.tag == Settle(id)
  }

  predicate Unmentioned(tagged: seq<Tagged>, id: Id) {
    tagged == [] || (!Mentions(tagged[0], id) && Unmentioned(tagged[1..], id))
  }

  /** The commitment stands in the timeline once, at its time and amount, and nothing settles it. */
  predicate Awaits(tagged: seq<Tagged>, id: Id, amount: int, at: Time) {
    tagged != [] &&
    if tagged[0].tag == Commit(id) then
      tagged[0].entry.at == at && tagged[0].entry.debit == amount && Unmentioned(tagged[1..], id)
    else
      !Mentions(tagged[0], id) && Awaits(tagged[1..], id, amount, at)
  }

  /** The times run forward. */
  predicate Ordered(tagged: seq<Tagged>) {
    forall i | 0 < i < |tagged| :: tagged[i - 1].entry.at <= tagged[i].entry.at
  }

  lemma OrderedIsSorted(tagged: seq<Tagged>)
    requires Sorted(Untag(tagged))
    ensures Ordered(tagged)
  {
    UntagAt(tagged);
  }

  lemma {:induction false} InsertKeepsUnmentioned(tagged: seq<Tagged>, x: Tagged, id: Id)
    requires Unmentioned(tagged, id) && !Mentions(x, id)
    ensures Unmentioned(Insert(tagged, x), id)
  {
    if tagged != [] && tagged[0].entry.at <= x.entry.at {
      InsertKeepsUnmentioned(tagged[1..], x, id);
      assert Insert(tagged, x)[1..] == Insert(tagged[1..], x);
    } else {
      assert ([x] + tagged)[1..] == tagged;
    }
  }

  lemma {:induction false} InsertKeepsAwaits(tagged: seq<Tagged>, x: Tagged, id: Id, amount: int, at: Time)
    requires Awaits(tagged, id, amount, at) && !Mentions(x, id)
    ensures Awaits(Insert(tagged, x), id, amount, at)
  {
    if tagged[0].entry.at <= x.entry.at {
      assert Insert(tagged, x)[1..] == Insert(tagged[1..], x);
      if tagged[0].tag == Commit(id) {
        InsertKeepsUnmentioned(tagged[1..], x, id);
      } else {
        InsertKeepsAwaits(tagged[1..], x, id, amount, at);
      }
    } else {
      assert ([x] + tagged)[1..] == tagged;
    }
  }

  lemma {:induction false} InsertedCommitAwaits(tagged: seq<Tagged>, x: Tagged, id: Id)
    requires Unmentioned(tagged, id) && x.tag == Commit(id)
    ensures Awaits(Insert(tagged, x), id, x.entry.debit, x.entry.at)
  {
    if tagged != [] && tagged[0].entry.at <= x.entry.at {
      InsertedCommitAwaits(tagged[1..], x, id);
      assert Insert(tagged, x)[1..] == Insert(tagged[1..], x);
    } else {
      assert ([x] + tagged)[1..] == tagged;
    }
  }

  lemma {:induction false} InsertPlain(tagged: seq<Tagged>, x: Tagged, open: map<Id, int>)
    requires WellMatched(tagged, open)
    requires x.tag.Admit? || x.tag.Withdraw?
    requires Fits(open, x)
    ensures WellMatched(Insert(tagged, x), open)
  {
    if tagged != [] && tagged[0].entry.at <= x.entry.at {
      InsertPlain(tagged[1..], x, Open(open, tagged[0]));
      assert Insert(tagged, x)[1..] == Insert(tagged[1..], x);
    } else {
      assert ([x] + tagged)[1..] == tagged;
    }
  }

  /** What a timeline never mentions may be opened before it or not. */
  lemma {:induction false} OpenUnmentioned(tagged: seq<Tagged>, open: map<Id, int>, id: Id, amount: int)
    requires WellMatched(tagged, open) && id !in open && Unmentioned(tagged, id)
    ensures WellMatched(tagged, open[id := amount])
  {
    if tagged != [] {
      OpenUnmentioned(tagged[1..], Open(open, tagged[0]), id, amount);
      assert Open(open[id := amount], tagged[0]) == Open(open, tagged[0])[id := amount];
    }
  }

  lemma {:induction false} CloseUnmentioned(tagged: seq<Tagged>, open: map<Id, int>, id: Id)
    requires WellMatched(tagged, open) && Unmentioned(tagged, id)
    ensures WellMatched(tagged, open - {id})
  {
    if tagged != [] {
      CloseUnmentioned(tagged[1..], Open(open, tagged[0]), id);
      assert Open(open - {id}, tagged[0]) == Open(open, tagged[0]) - {id};
    }
  }

  lemma {:induction false} InsertCommit(tagged: seq<Tagged>, x: Tagged, open: map<Id, int>, id: Id)
    requires WellMatched(tagged, open)
    requires x.tag == Commit(id) && x.entry.credit == 0
    requires id !in open && Unmentioned(tagged, id)
    ensures WellMatched(Insert(tagged, x), open)
  {
    if tagged != [] && tagged[0].entry.at <= x.entry.at {
      InsertCommit(tagged[1..], x, Open(open, tagged[0]), id);
      assert Insert(tagged, x)[1..] == Insert(tagged[1..], x);
    } else {
      OpenUnmentioned(tagged, open, id, x.entry.debit);
      assert ([x] + tagged)[1..] == tagged;
    }
  }

  /** A settlement dated no earlier than its commitment lands behind it, however late it is recorded. */
  lemma {:induction false} InsertSettle(tagged: seq<Tagged>, x: Tagged, open: map<Id, int>, id: Id, at: Time)
    requires Ordered(tagged) && WellMatched(tagged, open)
    requires x.tag == Settle(id) && x.entry.debit <= x.entry.credit && at <= x.entry.at
    requires if id in open then open[id] == x.entry.credit && Unmentioned(tagged, id)
             else Awaits(tagged, id, x.entry.credit, at)
    ensures WellMatched(Insert(tagged, x), open)
  {
    if tagged != [] && tagged[0].entry.at <= x.entry.at {
      assert Ordered(tagged[1..]);
      InsertSettle(tagged[1..], x, Open(open, tagged[0]), id, at);
      assert Insert(tagged, x)[1..] == Insert(tagged[1..], x);
    } else {
      if id !in open {
        AwaitsNotYet(tagged, id, x.entry.credit, at);
      }
      CloseUnmentioned(tagged, open, id);
      assert ([x] + tagged)[1..] == tagged;
    }
  }

  lemma {:induction false} AwaitsNotYet(tagged: seq<Tagged>, id: Id, amount: int, at: Time)
    requires Ordered(tagged) && Awaits(tagged, id, amount, at)
    ensures tagged[0].entry.at <= at
  {
    if tagged[0].tag != Commit(id) {
      assert Ordered(tagged[1..]);
      AwaitsNotYet(tagged[1..], id, amount, at);
    }
  }
}
