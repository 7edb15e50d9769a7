/** A durable medium that may stop the process, or fail it, at any durable write. */
module DurableMedium {
  import opened Prelude
  import opened DurableStore

  datatype Failure = Stopped | Failed(error: LedgerError)

  /**
   * The world when the write after `fuse` others does not return: it did not
   * happen, or a journal append happened in part, or an anchor move happened but
   * its reply was lost.
   */
  function StoppedAt(w: World, writes: seq<Write>, fuse: nat, torn: nat, lostReply: bool): World
    decreases |writes|
  {
    if writes == [] then w
    else if fuse > 0 then StoppedAt(Perform(w, writes[0]), writes[1..], fuse - 1, torn, lostReply)
    else if writes[0].MoveAnchor? && lostReply then Perform(w, writes[0])
    else Interrupted(w, writes, 0, torn)
  }

  /** Every such stop is one of the cuts of the crash protocol. */
  lemma {:induction false} StopIsACut(w: World, writes: seq<Write>, fuse: nat, torn: nat, lostReply: bool)
    returns (done: nat, rest: nat)
    ensures StoppedAt(w, writes, fuse, torn, lostReply) == Interrupted(w, writes, done, rest)
    decreases |writes|
  {
    if writes == [] {
      done, rest := 0, 0;
    } else if fuse > 0 {
      done, rest := StopIsACut(Perform(w, writes[0]), writes[1..], fuse - 1, torn, lostReply);
      done := done + 1;
    } else if writes[0].MoveAnchor? && lostReply {
      done := 1;
      rest := if |writes| > 1 && writes[1].AppendJournal? then |writes[1].bytes| + 1 else 0;
    } else {
      done, rest := 0, torn;
    }
  }

  /** The process stopped at the first write after those already done. */
  lemma {:induction false} StoppedAfter(
    w: World, before: seq<Write>, x: Write, after: seq<Write>, torn: nat, lostReply: bool)
    ensures StoppedAt(w, before + [x] + after, |before|, torn, lostReply)
         == StoppedAt(PerformAll(w, before), [x], 0, torn, lostReply)
    decreases |before|
  {
    if before == [] {
      assert before + [x] + after == [x] + after;
    } else {
      assert (before + [x] + after)[1..] == before[1..] + [x] + after;
      StoppedAfter(Perform(w, before[0]), before[1..], x, after, torn, lostReply);
    }
  }

  lemma {:induction false} StoppedConcat(w: World, a: seq<Write>, b: seq<Write>, fuse: nat, torn: nat, lostReply: bool)
    ensures fuse < |a| ==> StoppedAt(w, a + b, fuse, torn, lostReply) == StoppedAt(w, a, fuse, torn, lostReply)
    ensures fuse >= |a| ==>
              StoppedAt(w, a + b, fuse, torn, lostReply)
              == StoppedAt(PerformAll(w, a), b, fuse - |a|, torn, lostReply)
    decreases |a|
  {
    if a == [] {
      assert a + b == b;
    } else if fuse > 0 {
      assert (a + b)[1..] == a[1..] + b;
      StoppedConcat(Perform(w, a[0]), a[1..], b, fuse - 1, torn, lostReply);
    }
  }

  /** What a run of a plan over a medium leaves behind and returns. */
  ghost predicate Ran<T>(
    plan: Plan<T>, before: World, fuse: nat, torn: nat, lostReply: bool, after: World, left: nat,
    r: Result<T, Failure>)
  {
    if |plan.writes| <= fuse then
      && after == PerformAll(before, plan.writes)
      && left == fuse - |plan.writes|
      && (if plan.outcome.Ok? then r == Ok(plan.outcome.value) else r == Err(Failed(plan.outcome.error)))
    else
      && after == StoppedAt(before, plan.writes, fuse, torn, lostReply)
      && left == 0
      && r == Err(Stopped)
  }

  /** One plan, and if it succeeds another one. */
  ghost function Then<A, B>(first: Plan<A>, rest: Plan<B>): Plan<B> {
    if first.outcome.Err? then Plan(first.writes, Err(first.outcome.error))
    else Plan(first.writes + rest.writes, rest.outcome)
  }

  /** Running one plan and, unless it failed or stopped, the other is running both. */
  lemma RanThen<A, B>(
    first: Plan<A>, rest: Plan<B>, w: World, fuse: nat, torn: nat, lostReply: bool, mid: World, midFuse: nat,
    r1: Result<A, Failure>, after: World, left: nat, r: Result<B, Failure>)
    requires Ran(first, w, fuse, torn, lostReply, mid, midFuse, r1)
    requires r1.Ok? ==> Ran(rest, mid, midFuse, torn, lostReply, after, left, r)
    requires r1.Err? ==> after == mid && left == midFuse && r == Err(r1.error)
    ensures Ran(Then(first, rest), w, fuse, torn, lostReply, after, left, r)
  {
    PerformConcat(w, first.writes, rest.writes);
    StoppedConcat(w, first.writes, rest.writes, fuse, torn, lostReply);
    hide PerformAll, StoppedAt;
  }

  class Medium {
    var world: World
    var fuse: nat
    const torn: nat
    const lostReply: bool

    constructor (world: World, fuse: nat, torn: nat, lostReply: bool)
      ensures this.world == world && this.fuse == fuse && this.torn == torn && this.lostReply == lostReply
    {
      this.world := world;
      this.fuse := fuse;
      this.torn := torn;
      this.lostReply := lostReply;
    }

    /** One durable write; when it does not return, its effect is as `StoppedAt` says. */
    method Do(x: Write) returns (returned: bool)
      modifies this
      ensures returned == (old(fuse) > 0)
      ensures returned ==> world == Perform(old(world), x) && fuse == old(fuse) - 1
      ensures !returned ==> world == StoppedAt(old(world), [x], 0, torn, lostReply) && fuse == 0
    {
      if fuse > 0 {
        world := Perform(world, x);
        fuse := fuse - 1;
        return true;
      }
      if x.MoveAnchor? && lostReply {
        world := Perform(world, x);
      } else if x.AppendJournal? && torn <= |x.bytes| {
        world := Perform(world, AppendJournal(x.bytes[..torn]));
      }
      return false;
    }

    /** Several durable writes, one after the other. */
    method DoAll(writes: seq<Write>) returns (returned: bool)
      modifies this
      ensures returned == (|writes| <= old(fuse))
      ensures returned ==> world == PerformAll(old(world), writes) && fuse == old(fuse) - |writes|
      ensures !returned ==> world == StoppedAt(old(world), writes, old(fuse), torn, lostReply) && fuse == 0
      ensures Ran(Plan(writes, Ok(())), old(world), old(fuse), torn, lostReply, world, fuse,
                  if returned then Ok(()) else Err(Stopped))
    {
      var i := 0;
      while i < |writes|
        invariant 0 <= i <= |writes|
        invariant i <= old(fuse) && fuse == old(fuse) - i
        invariant world == PerformAll(old(world), writes[..i])
      {
        var did := Do(writes[i]);
        if !did {
          assert writes == writes[..i] + [writes[i]] + writes[i + 1..];
          StoppedAfter(old(world), writes[..i], writes[i], writes[i + 1..], torn, lostReply);
          return false;
        }
        PerformConcat(old(world), writes[..i], [writes[i]]);
        assert writes[..i] + [writes[i]] == writes[..i + 1];
        i := i + 1;
      }
      assert writes[..i] == writes;
      return true;
    }
  }
}
