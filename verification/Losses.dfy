/** Where the bytes went that the kernel counted and that were attributed to nobody
    (go/cmd/blindport-relay/wireguard_accounting.go). */
module Losses {
  import opened Bandwidth
  import opened Accounting

  /** Counted since the last reading of a table that someone else removed, or that close removed
      undrained; and counted by tables that the accounting never had as its own. */
  datatype Losses = Losses(elsewhere: Counters, undrained: Counters, orphaned: Counters)

  datatype Cause = Elsewhere | Undrained

  ghost function LostOf(lost: Losses, s: Subscription, d: Direction): nat {
    Get(lost.elsewhere, s, d) + Get(lost.undrained, s, d) + Get(lost.orphaned, s, d)
  }

  /** The last reading of a table that is gone and was not retired yet. */
  ghost function Unretired(last: Counters, present: bool, kernel: Kernel, s: Subscription, d: Direction): nat {
    if present && kernel.NoTable? then Get(last, s, d) else 0
  }

  /** Every byte counted by a dead table is in the last reading of that table or is lost. */
  ghost predicate Exact(
    retired: Counters, last: Counters, present: bool, kernel: Kernel, dead: Counters, lost: Losses) {
    forall s, d ::
      Get(dead, s, d) == Get(retired, s, d) + Unretired(last, present, kernel, s, d) + LostOf(lost, s, d)
  }

  /** What was counted since the last reading. */
  ghost function Unread(last: Counters, now: Counters): Counters {
    map s | s in now :: Totals(Gain(last, now, s, Ingress), Gain(last, now, s, Egress))
  }

  /** The losses once the table is destroyed: none if it was just read, or if there is no table. */
  ghost function Destroyed(lost: Losses, cause: Cause, last: Counters, present: bool, kernel: Kernel): Losses {
    if kernel.NoTable? || (present && kernel.counters == last) then lost
    else if !present then lost.(orphaned := Plus(lost.orphaned, kernel.counters))
    else if cause.Elsewhere? then lost.(elsewhere := Plus(lost.elsewhere, Unread(last, kernel.counters)))
    else lost.(undrained := Plus(lost.undrained, Unread(last, kernel.counters)))
  }

  lemma {:induction false} DestroyedAdds(
    lost: Losses, cause: Cause, last: Counters, present: bool, kernel: Kernel, s: Subscription, d: Direction)
    requires kernel.Table? && AtMost(last, kernel.counters) && (!present ==> last.Keys == {})
    ensures LostOf(Destroyed(lost, cause, last, present, kernel), s, d)
            == LostOf(lost, s, d) + Get(kernel.counters, s, d) - Get(last, s, d)
  {
    var now := kernel.counters;
    UnreadIsTheRest(last, now, s, d);
    PlusAdds(lost.orphaned, now, s, d);
    PlusAdds(lost.elsewhere, Unread(last, now), s, d);
    PlusAdds(lost.undrained, Unread(last, now), s, d);
  }

  lemma {:induction false} UnreadIsTheRest(last: Counters, now: Counters, s: Subscription, d: Direction)
    requires AtMost(last, now)
    ensures Get(Unread(last, now), s, d) + Get(last, s, d) == Get(now, s, d)
  {
    assert Get(last, s, d) <= Get(now, s, d);
  }

  /** A table that is destroyed, whoever does it, loses exactly what was not read. */
  lemma {:induction false} DestroyedIsExact(
    retired: Counters, last: Counters, present: bool, kernel: Kernel, dead: Counters, lost: Losses, cause: Cause)
    requires Exact(retired, last, present, kernel, dead, lost) && (!present ==> last.Keys == {})
    requires kernel.Table? ==> AtMost(last, kernel.counters)
    ensures Exact(retired, last, present, NoTable, Plus(dead, Live(kernel)),
                  Destroyed(lost, cause, last, present, kernel))
  {
    var lost' := Destroyed(lost, cause, last, present, kernel);
    forall s, d
      ensures Get(Plus(dead, Live(kernel)), s, d)
              == Get(retired, s, d) + Unretired(last, present, NoTable, s, d) + LostOf(lost', s, d)
    {
      PlusAdds(dead, Live(kernel), s, d);
      assert Get(dead, s, d) == Get(retired, s, d) + Unretired(last, present, kernel, s, d) + LostOf(lost, s, d);
      if kernel.Table? {
        DestroyedAdds(lost, cause, last, present, kernel, s, d);
      }
    }
  }

  lemma {:induction false} RetiringIsExact(
    retired: Counters, last: Counters, none: Counters, dead: Counters, lost: Losses)
    requires Exact(retired, last, true, NoTable, dead, lost)
    ensures Exact(Plus(retired, last), none, false, NoTable, dead, lost)
  {
    forall s, d
      ensures Get(dead, s, d)
              == Get(Plus(retired, last), s, d) + Unretired(none, false, NoTable, s, d) + LostOf(lost, s, d)
    {
      PlusAdds(retired, last, s, d);
      assert Get(dead, s, d) == Get(retired, s, d) + Unretired(last, true, NoTable, s, d) + LostOf(lost, s, d);
    }
  }

  /** A table that is replaced although the accounting did not have it as its own is orphaned. */
  lemma {:induction false} InstalledIsExact(
    retired: Counters, last: Counters, last': Counters, kernel: Kernel, kernel': Kernel, dead: Counters,
    lost: Losses)
    requires Exact(retired, last, false, kernel, dead, lost) && last.Keys == {} && kernel'.Table?
    ensures var lost' := Destroyed(lost, Undrained, last, false, kernel);
            && Exact(retired, last, false, kernel', Plus(dead, Live(kernel)), lost')
            && Exact(retired, last', true, kernel', Plus(dead, Live(kernel)), lost')
            && lost' == lost.(orphaned := lost'.orphaned) && (kernel.NoTable? ==> lost' == lost)
  {
    DestroyedIsExact(retired, last, false, kernel, dead, lost, Undrained);
    var dead', lost' := Plus(dead, Live(kernel)), Destroyed(lost, Undrained, last, false, kernel);
    forall s, d
      ensures Get(dead', s, d) == Get(retired, s, d) + LostOf(lost', s, d)
    {
      assert Get(dead', s, d) == Get(retired, s, d) + Unretired(last, false, NoTable, s, d) + LostOf(lost', s, d);
    }
  }

  lemma {:induction false} CountingIsExact(
    retired: Counters, last: Counters, present: bool, kernel: Kernel, now: Counters, dead: Counters, lost: Losses)
    requires Exact(retired, last, present, kernel, dead, lost) && kernel.Table?
    ensures Exact(retired, last, present, Table(kernel.bindings, now), dead, lost)
  {
    forall s, d
      ensures Get(dead, s, d)
              == Get(retired, s, d) + Unretired(last, present, Table(kernel.bindings, now), s, d) + LostOf(lost, s, d)
    {
      assert Get(dead, s, d) == Get(retired, s, d) + Unretired(last, present, kernel, s, d) + LostOf(lost, s, d);
    }
  }

  /** Counted by the table that exists and not read yet. */
  ghost function Uncollected(last: Counters, present: bool, kernel: Kernel, s: Subscription, d: Direction): int {
    if kernel.NoTable? then 0
    else Get(kernel.counters, s, d) - (if present then Get(last, s, d) else 0)
  }

  /** Over all tables, every byte that was counted is attributed, lost or not collected yet. */
  lemma {:induction false} CountedIsAccountedFor(
    accepted: seq<Increment>, retired: Counters, last: Counters, present: bool, kernel: Kernel,
    dead: Counters, lost: Losses, s: Subscription, d: Direction)
    requires SumOf(accepted, s, d) == Get(retired, s, d) + Get(last, s, d)
    requires Exact(retired, last, present, kernel, dead, lost) && (!present ==> last.Keys == {})
    ensures Get(dead, s, d) + Get(Live(kernel), s, d)
            == SumOf(accepted, s, d) + LostOf(lost, s, d) + Uncollected(last, present, kernel, s, d)
  {
    assert Get(dead, s, d)
        == Get(retired, s, d) + Unretired(last, present, kernel, s, d) + LostOf(lost, s, d);
  }

  // ---- What losses come from ----

  /** The losses with the calls that went wrong: `failures` are readings that could not be used,
      `halves` installations that replaced the table although they failed. `owned` says that no
      table exists that the accounting does not have as its own. */
  datatype Trail = Trail(lost: Losses, failures: nat, halves: nat, owned: bool)

  /** From `x` to `y` no table lost what it had counted unless a reading failed, and no table
      was orphaned unless an installation failed with effect. */
  ghost predicate Explained(x: Trail, y: Trail) {
    && x.failures <= y.failures && x.halves <= y.halves
    && (y.failures == x.failures ==> y.lost.undrained == x.lost.undrained)
    && (x.owned && y.halves == x.halves ==> y.owned && y.lost.orphaned == x.lost.orphaned)
  }
}
