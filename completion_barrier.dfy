/**
 * The counter object `processImages` shares with its callbacks, and
 * `checkCompletion`, which ends the save once every counted operation has
 * settled. Callbacks run one at a time, in whatever order the responses
 * arrive.
 */
module CompletionBarrier {
  import opened Wrappers
  import opened ImageSet

  /** The four counters of the shared `operations` object. */
  datatype Tally = Tally(deleted: nat, uploaded: nat, updated: nat, failed: nat)

  const Zero: Tally := Tally(0, 0, 0, 0)

  /** `deleted + uploaded + updated + failed` */
  function Completed(t: Tally): nat
  {
    t.deleted + t.uploaded + t.updated + t.failed
  }

  /**
   * The counter a settled call increments: the one for its kind when it
   * succeeded, `failed` when it did not. Exactly one counter moves, by one.
   */
  function Record(t: Tally, op: Op, ok: bool): (r: Tally)
    ensures Completed(r) == Completed(t) + 1
    ensures !ok ==> r == t.(failed := t.failed + 1)
    ensures ok && op.DeleteImage? ==> r == t.(deleted := t.deleted + 1)
    ensures ok && op.UploadImage? ==> r == t.(uploaded := t.uploaded + 1)
    ensures ok && op.UpdateOrder? ==> r == t.(updated := t.updated + 1)
  {
    if !ok then t.(failed := t.failed + 1)
    else match op
      case DeleteImage(_) => t.(deleted := t.deleted + 1)
      case UploadImage(_, _, _) => t.(uploaded := t.uploaded + 1)
      case UpdateOrder(_, _) => t.(updated := t.updated + 1)
  }

  /** One response: the call it answers and whether it succeeded. */
  datatype Settlement = Settlement(op: Op, ok: bool)

  /** The counters after the responses `events`, handled in that order. */
  function Replay(t: Tally, events: seq<Settlement>): (r: Tally)
    ensures Completed(r) == Completed(t) + |events|
    decreases events
  {
    if events == [] then t
    else Replay(Record(t, events[0].op, events[0].ok), events[1..])
  }

  /** Two responses move different counters or the same one, so their order does not matter. */
  lemma RecordCommutes(t: Tally, a: Settlement, b: Settlement)
    ensures Record(Record(t, a.op, a.ok), b.op, b.ok) == Record(Record(t, b.op, b.ok), a.op, a.ok)
  {
  }

  /** Handling response `k` first and then the rest in order gives the same counters. */
  lemma {:induction false} ReplayExtract(t: Tally, events: seq<Settlement>, k: nat)
    requires k < |events|
    ensures Replay(t, events) ==
      Replay(Record(t, events[k].op, events[k].ok), events[..k] + events[k + 1..])
    decreases k
  {
    if k == 0 {
      assert events[..0] + events[1..] == events[1..];
    } else {
      var head := events[0];
      var tail := events[1..];
      ReplayExtract(Record(t, head.op, head.ok), tail, k - 1);
      RecordCommutes(t, head, events[k]);
      assert tail[k - 1] == events[k];
      assert [head] + (tail[..k - 1] + tail[k..]) == events[..k] + events[k + 1..];
      assert (events[..k] + events[k + 1..])[1..] == tail[..k - 1] + tail[k..];
    }
  }

  /** The final counters depend only on which responses arrived, not on their order. */
  lemma {:induction false} ReplayOrderIndependent(t: Tally, a: seq<Settlement>, b: seq<Settlement>)
    requires multiset(a) == multiset(b)
    ensures Replay(t, a) == Replay(t, b)
    decreases |a|
  {
    if a != [] {
      var e := a[0];
      assert e in multiset(b);
      var k :| 0 <= k < |b| && b[k] == e;
      var rest := b[..k] + b[k + 1..];
      assert b == b[..k] + [e] + b[k + 1..];
      assert a == [e] + a[1..];
      assert multiset(b) == multiset(b[..k]) + multiset{e} + multiset(b[k + 1..]);
      assert multiset(rest) == multiset(b[..k]) + multiset(b[k + 1..]);
      assert multiset(a) == multiset{e} + multiset(a[1..]);
      assert multiset(a[1..]) == multiset(a) - multiset{e};
      assert multiset(rest) == multiset(b) - multiset{e};
      ReplayOrderIndependent(Record(t, e.op, e.ok), a[1..], rest);
      ReplayExtract(t, b, k);
    }
  }

  /** `failed` counts exactly the responses that were errors. */
  lemma {:induction false} ReplayFailed(t: Tally, events: seq<Settlement>)
    ensures Replay(t, events).failed == t.failed + |Lists.Filter(events, (e: Settlement) => !e.ok)|
    decreases events
  {
    if events != [] {
      ReplayFailed(Record(t, events[0].op, events[0].ok), events[1..]);
    }
  }

  /**
   * How many times `checkCompletion` finds `completed === total` while the
   * responses `events` are handled in order, starting from counters `t`.
   */
  function Firings(total: nat, t: Tally, events: seq<Settlement>): nat
    decreases events
  {
    if events == [] then 0
    else
      var next := Record(t, events[0].op, events[0].ok);
      (if Completed(next) == total then 1 else 0) + Firings(total, next, events[1..])
  }

  /**
   * The save finishes exactly once if the responses bring the count from below
   * `total` up to at least `total`, and never otherwise: with fewer responses
   * than `total` it never finishes.
   */
  lemma {:induction false} FiresExactlyOnce(total: nat, t: Tally, events: seq<Settlement>)
    ensures Firings(total, t, events) ==
      if Completed(t) < total <= Completed(t) + |events| then 1 else 0
    decreases events
  {
    if events != [] {
      FiresExactlyOnce(total, Record(t, events[0].op, events[0].ok), events[1..]);
    }
  }

  /**
   * The shared counter object of one save, with the effects of its completion:
   * `submitting` goes back to false, the editor navigates to the product list,
   * and a summary is shown if any operation failed.
   */
  class Barrier {
    /** The number of operations the save waits for. */
    const total: nat
    var tally: Tally
    /** Calls issued and not yet answered. */
    var pending: multiset<Op>
    var submitting: bool
    /** Navigations to the product list. */
    var navigations: nat
    /** The counters shown in the failure summary, if it was shown. */
    var failureAlert: Option<Tally>

    ghost predicate Valid()
      reads this
    {
      && Completed(tally) + |pending| <= total
      && navigations == (if Completed(tally) == total then 1 else 0)
      && submitting == (Completed(tally) < total)
      && failureAlert == (if Completed(tally) == total && tally.failed > 0 then Some(tally) else None)
    }

    /** The counters start at zero with the issued calls outstanding. */
    constructor Start(total: nat, issued: seq<Op>)
      requires 0 < total
      requires |issued| <= total
      ensures Valid()
      ensures this.total == total && tally == Zero && pending == multiset(issued)
      ensures submitting && navigations == 0 && failureAlert == None
    {
      this.total := total;
      tally := Zero;
      pending := multiset(issued);
      assert |multiset(issued)| == |issued|;
      submitting := true;
      navigations := 0;
      failureAlert := None;
    }

    /**
     * The response to `op` arrives: one counter moves, then `checkCompletion`
     * runs. The save finishes on this response exactly when it brings the count
     * to `total`.
     */
    method Settle(op: Op, ok: bool)
      requires Valid()
      requires op in pending
      modifies this
      ensures Valid()
      ensures tally == Record(old(tally), op, ok)
      ensures pending == old(pending) - multiset{op}
      ensures old(navigations) == 0
      ensures navigations == (if Completed(tally) == total then 1 else 0)
      ensures failureAlert.Some? ==> navigations == 1 && tally.failed > 0
    {
      tally := Record(tally, op, ok);
      pending := pending - multiset{op};
      if Completed(tally) == total {
        submitting := false;
        if tally.failed > 0 {
          failureAlert := Some(tally);
        }
        navigations := navigations + 1;
      }
    }
  }
}
