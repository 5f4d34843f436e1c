/** The objects of go/cmd/blindport-relay/wireguard_accounting.go and the manager's cycle in
    go/cmd/blindport-relay/wireguard.go, over a kernel table whose calls may fail. */
module AccountingCycle {
  import opened Bandwidth
  import opened Accounting
  import opened Attribution
  import opened Losses

  // ---- The books ----

  /** What was attributed is what the retired tables last read plus the current last reading. */
  ghost predicate Telescopes(accepted: seq<Increment>, retired: Counters, last: Counters) {
    forall s, d :: SumOf(accepted, s, d) == Get(retired, s, d) + Get(last, s, d)
  }

  /** `dead` has the bytes counted by tables that no longer exist. A present table that still exists
      carries the current bindings, and no reading is above what the kernel counted. */
  ghost predicate Covered(
    retired: Counters, last: Counters, present: bool, bindings: Bindings, kernel: Kernel, dead: Counters) {
    if !present then last.Keys == {} && AtMost(retired, dead)
    else if kernel.NoTable? then AtMost(Plus(retired, last), dead)
    else
      && kernel.bindings == bindings && kernel.counters.Keys == bindings.Values
      && AtMost(retired, dead) && AtMost(last, kernel.counters)
  }

  /** One collection keeps the sum: the gains since the last reading are exactly what is added. */
  lemma {:induction false} CollectionTelescopes(
    accepted: seq<Increment>, retired: Counters, last: Counters, now: Counters, incs: seq<Increment>)
    requires Telescopes(accepted, retired, last) && AtMost(last, now) && Gains(incs, last, now, now.Keys)
    ensures Telescopes(accepted + incs, retired, now)
  {
    forall s, d
      ensures SumOf(accepted + incs, s, d) == Get(retired, s, d) + Get(now, s, d)
    {
      SumOfConcat(accepted, incs, s, d);
      assert Get(last, s, d) <= Get(now, s, d);
    }
  }

  /** The batch of a collection brings its bytes into the accumulator, whatever the day. */
  lemma {:induction false} CollectionBooks(entries: Entries, accepted: seq<Increment>, incs: seq<Increment>, day: int)
    ensures Booked(entries, accepted, Added(entries, incs, day), accepted + incs)
  {
    forall s, d
      ensures SumOf(accepted + incs, s, d) == SumOf(accepted, s, d) + SumOf(incs, s, d)
    {
      SumOfConcat(accepted, incs, s, d);
    }
    BookedOne(entries, accepted, incs, day);
  }

  /** Retiring a table moves its last reading to the retired ones. */
  lemma {:induction false} RetiringTelescopes(
    accepted: seq<Increment>, retired: Counters, last: Counters, none: Counters)
    requires Telescopes(accepted, retired, last) && none.Keys == {}
    ensures Telescopes(accepted, Plus(retired, last), none)
  {
    forall s, d
      ensures SumOf(accepted, s, d) == Get(Plus(retired, last), s, d) + Get(none, s, d)
    {
      PlusAdds(retired, last, s, d);
    }
  }

  lemma {:induction false} InstallingTelescopes(
    accepted: seq<Increment>, retired: Counters, last: Counters, b: Bindings)
    requires Telescopes(accepted, retired, last) && last.Keys == {}
    ensures Telescopes(accepted, retired, Zeros(b))
  {
    forall s, d
      ensures SumOf(accepted, s, d) == Get(retired, s, d) + Get(Zeros(b), s, d)
    {
      assert Get(last, s, d) == 0;
    }
  }

  lemma {:induction false} DestroyedStaysCovered(
    retired: Counters, last: Counters, present: bool, b: Bindings, kernel: Kernel, dead: Counters)
    requires Covered(retired, last, present, b, kernel, dead)
    ensures Covered(retired, last, present, b, NoTable, Plus(dead, Live(kernel)))
    ensures present ==> AtMost(Plus(retired, last), Plus(dead, Live(kernel)))
  {
    if !present {
      PlusGrows(retired, dead, Live(kernel));
    } else if kernel.NoTable? {
      PlusGrows(Plus(retired, last), dead, Live(kernel));
    } else {
      PlusAtMost(retired, last, dead, kernel.counters);
    }
  }

  lemma {:induction false} InstalledIsCovered(
    retired: Counters, last: Counters, b: Bindings, b': Bindings, kernel: Kernel, dead: Counters)
    requires Covered(retired, last, false, b, kernel, dead)
    ensures Covered(retired, last, false, b', Table(b', Zeros(b')), Plus(dead, Live(kernel)))
    ensures Covered(retired, Zeros(b'), true, b', Table(b', Zeros(b')), Plus(dead, Live(kernel)))
  {
    PlusGrows(retired, dead, Live(kernel));
  }

  lemma {:induction false} ReadingIsExact(rows: seq<Row>, current: Counters, b: Bindings, counters: Counters)
    requires Holds(current, rows, b) && Truthful(rows, counters) && current.Keys == b.Values == counters.Keys
    ensures current == counters
  {
    forall s | s in current
      ensures current[s] == counters[s]
    {
      var i :| 0 <= i < |rows| && rows[i].sub == s;
    }
  }

  /** Rows that pass the checks of collect are the kernel's counters. */
  method Readings(rows: seq<Row>, b: Bindings, ghost counters: Counters) returns (ok: bool, current: Counters)
    requires Truthful(rows, counters) && counters.Keys == b.Values
    ensures ok <==> Complete(rows, b)
    ensures ok ==> current == counters
  {
    ok, current := Current(rows, b);
    if ok {
      ReadingIsExact(rows, current, b, counters);
    }
  }

  /** No byte is attributed twice: never more than the kernel counted over all tables. */
  lemma {:induction false} NeverMoreThanCounted(
    accepted: seq<Increment>, retired: Counters, last: Counters, present: bool, b: Bindings,
    kernel: Kernel, dead: Counters, s: Subscription, d: Direction)
    requires Telescopes(accepted, retired, last) && Covered(retired, last, present, b, kernel, dead)
    ensures SumOf(accepted, s, d) <= Get(dead, s, d) + Get(Live(kernel), s, d)
  {
    PlusAdds(retired, last, s, d);
    assert SumOf(accepted, s, d) == Get(retired, s, d) + Get(last, s, d);
    if present && kernel.NoTable? {
      assert Get(Plus(retired, last), s, d) <= Get(dead, s, d);
    } else {
      assert Get(retired, s, d) <= Get(dead, s, d);
    }
  }

  // ---- The accumulator is shared ----

  /** What pruning takes from a subscription, over its days. */
  ghost function Less(entries: Entries, day: int, s: Subscription, d: Direction): nat {
    var was, now := SumDays(entries, s, d), SumDays(Pruned(entries, day), s, d);
    if now <= was then was - now else 0
  }

  ghost function Dropped(entries: Entries, day: int): Counters {
    map s | s in (set k | k in entries :: k.sub) ::
      Totals(Less(entries, day, s, Ingress), Less(entries, day, s, Egress))
  }

  lemma {:induction false} PruningMoves(entries: Entries, day: int, s: Subscription, d: Direction)
    ensures SumDays(Pruned(entries, day), s, d) + Get(Dropped(entries, day), s, d) == SumDays(entries, s, d)
  {
    PruningShrinks(entries, day, s, d);
    if s !in Dropped(entries, day) {
      NoneOf(entries, s, d);
    }
  }

  /** What is there or was pruned, and what went in: from the counters and from elsewhere. */
  ghost function Kept(entries: Entries, pruned: Counters, s: Subscription, d: Direction): nat {
    SumDays(entries, s, d) + Get(pruned, s, d)
  }

  ghost function Inflow(accepted: seq<Increment>, others: seq<Increment>, s: Subscription, d: Direction): nat {
    SumOf(accepted, s, d) + SumOf(others, s, d)
  }

  /** An accumulator with its surroundings. */
  datatype Account = Account(entries: Entries, pruned: Counters, accepted: seq<Increment>, others: seq<Increment>)

  /** From `x` to `y`, what is kept grew by exactly what went in. */
  ghost predicate Squares(x: Account, y: Account) {
    forall s, d ::
      Kept(y.entries, y.pruned, s, d) - Kept(x.entries, x.pruned, s, d)
      == Inflow(y.accepted, y.others, s, d) - Inflow(x.accepted, x.others, s, d)
  }

  lemma {:induction false} SquaresThen(x: Account, y: Account, z: Account)
    requires Squares(x, y) && Squares(y, z)
    ensures Squares(x, z)
  {
    forall s, d
      ensures Kept(z.entries, z.pruned, s, d) - Kept(x.entries, x.pruned, s, d)
              == Inflow(z.accepted, z.others, s, d) - Inflow(x.accepted, x.others, s, d)
    {
      assert Kept(y.entries, y.pruned, s, d) - Kept(x.entries, x.pruned, s, d)
          == Inflow(y.accepted, y.others, s, d) - Inflow(x.accepted, x.others, s, d);
    }
  }

  lemma {:induction false} BookedSquares(x: Account, y: Account)
    requires Booked(x.entries, x.accepted, y.entries, y.accepted) && y.pruned == x.pruned && y.others == x.others
    ensures Squares(x, y)
  {
    forall s, d
      ensures Kept(y.entries, y.pruned, s, d) - Kept(x.entries, x.pruned, s, d)
              == Inflow(y.accepted, y.others, s, d) - Inflow(x.accepted, x.others, s, d)
    {
      assert SumDays(y.entries, s, d) - SumDays(x.entries, s, d) == SumOf(y.accepted, s, d) - SumOf(x.accepted, s, d);
    }
  }

  lemma {:induction false} OthersSquare(x: Account, y: Account, incs: seq<Increment>, day: int)
    requires y == Account(Added(x.entries, incs, day), x.pruned, x.accepted, x.others + incs)
    ensures Squares(x, y)
  {
    forall s, d
      ensures Kept(y.entries, y.pruned, s, d) - Kept(x.entries, x.pruned, s, d)
              == Inflow(y.accepted, y.others, s, d) - Inflow(x.accepted, x.others, s, d)
    {
      BatchAddsOverDays(x.entries, incs, day, s, d);
      SumOfConcat(x.others, incs, s, d);
    }
  }

  lemma {:induction false} PruningSquares(x: Account, y: Account, day: int)
    requires y == Account(Pruned(x.entries, day), Plus(x.pruned, Dropped(x.entries, day)), x.accepted, x.others)
    ensures Squares(x, y)
  {
    forall s, d
      ensures Kept(y.entries, y.pruned, s, d) - Kept(x.entries, x.pruned, s, d)
              == Inflow(y.accepted, y.others, s, d) - Inflow(x.accepted, x.others, s, d)
    {
      PruningMoves(x.entries, day, s, d);
      PlusAdds(x.pruned, Dropped(x.entries, day), s, d);
    }
  }

  /** The accumulator itself telescopes. Since a moment when nothing was logged or pruned, what it holds
      over all days and what was pruned from it grew by what others added, the last readings of the
      retired tables and the current last reading; the readings are no more than the kernel counted. */
  lemma {:induction false} TotalsAreTheReadings(
    x: Account, y: Account, retired: Counters, last: Counters, present: bool, b: Bindings, kernel: Kernel,
    dead: Counters)
    requires Telescopes(y.accepted, retired, last) && Covered(retired, last, present, b, kernel, dead)
    requires Squares(x, y)
    ensures forall s, d :: SumOf(y.accepted, s, d) <= Get(dead, s, d) + Get(Live(kernel), s, d)
    ensures |x.accepted| == 0 && |x.others| == 0 && |x.pruned| == 0 ==> forall s, d ::
              && Kept(y.entries, y.pruned, s, d)
                 == SumDays(x.entries, s, d) + SumOf(y.others, s, d) + Get(retired, s, d) + Get(last, s, d)
              && Kept(y.entries, y.pruned, s, d)
                 <= SumDays(x.entries, s, d) + SumOf(y.others, s, d) + Get(dead, s, d) + Get(Live(kernel), s, d)
  {
    forall s, d
      ensures SumOf(y.accepted, s, d) <= Get(dead, s, d) + Get(Live(kernel), s, d)
      ensures |x.accepted| == 0 && |x.others| == 0 && |x.pruned| == 0 ==>
                Kept(y.entries, y.pruned, s, d)
                == SumDays(x.entries, s, d) + SumOf(y.others, s, d) + Get(retired, s, d) + Get(last, s, d)
    {
      NeverMoreThanCounted(y.accepted, retired, last, present, b, kernel, dead, s, d);
      assert Kept(y.entries, y.pruned, s, d) - Kept(x.entries, x.pruned, s, d)
          == Inflow(y.accepted, y.others, s, d) - Inflow(x.accepted, x.others, s, d);
    }
  }

  // ---- The kernel ----

  /** A row for a counted subscription has its true totals. Rows may be missing or repeated. */
  predicate Truthful(rows: seq<Row>, counters: Counters) {
    forall i :: 0 <= i < |rows| && rows[i].sub in counters ==>
      rows[i].ingress == counters[rows[i].sub].ingress && rows[i].egress == counters[rows[i].sub].egress
  }

  datatype Reading = Rows(rows: seq<Row>) | Missing | ReadError

  /** `dead` has what the tables counted that are gone, `readings` what Read returned, `faults` the calls of
      Install and Remove that failed and `halves` the failed installations that took effect. */
  class KernelTable {
    var table: Kernel
    ghost var dead: Counters
    ghost var readings: seq<Reading>
    ghost var faults: nat
    ghost var halves: nat

    constructor ()
      ensures table == NoTable && dead.Keys == {} && readings == [] && faults == 0 && halves == 0
    {
      table, dead, readings, faults, halves := NoTable, map[], [], 0, 0;
    }

    /** The table is replaced as a whole; a failed call may have replaced it too. */
    method Install(b: Bindings) returns (ok: bool, ghost took: bool)
      modifies this`table, this`dead, this`faults, this`halves
      ensures ok ==> took
      ensures table == if took then Table(b, Zeros(b)) else old(table)
      ensures dead == if took then Plus(old(dead), Live(old(table))) else old(dead)
      ensures faults == old(faults) + if ok then 0 else 1
      ensures halves == old(halves) + if took && !ok then 1 else 0
    {
      ok := *;
      var done: bool := *;
      faults, halves := faults + (if ok then 0 else 1), halves + (if done && !ok then 1 else 0);
      if ok || done {
        dead := Plus(dead, Live(table));
        table := Table(b, Zeros(b));
      }
      took := ok || done;
    }

    method Remove() returns (ok: bool, ghost took: bool)
      modifies this`table, this`dead, this`faults
      ensures ok ==> took
      ensures table == if took then NoTable else old(table)
      ensures dead == if took then Plus(old(dead), Live(old(table))) else old(dead)
      ensures faults == old(faults) + if ok then 0 else 1
    {
      ok := *;
      var done: bool := *;
      faults := faults + if ok then 0 else 1;
      if ok || done {
        dead := Plus(dead, Live(table));
        table := NoTable;
      }
      took := ok || done;
    }

    method Read() returns (r: Reading)
      modifies this`readings
      ensures readings == old(readings) + [r]
      ensures r.Missing? ==> table.NoTable?
      ensures r.Rows? ==> table.Table? && Truthful(r.rows, table.counters)
    {
      var fails: bool := *;
      if fails {
        r := ReadError;
      } else if table.NoTable? {
        r := Missing;
      } else {
        assert Truthful([], table.counters);
        var rows: seq<Row> :| Truthful(rows, table.counters);
        r := Rows(rows);
      }
      readings := readings + [r];
    }
  }

  // ---- The accounting ----

  datatype Collected = Fine | TableMissing | Failed

  datatype Prepared = Refused | Ready(bindings: Bindings, skip: bool)

  class Accounts {
    const acc: Accumulator
    const kernel: KernelTable
    const canonical: Subscription -> bool
    var bindings: Bindings
    var last: Counters
    var present: bool
    var applied: bool
    var revision: string
    ghost var accepted: seq<Increment>
    ghost var retired: Counters
    ghost var lost: Losses
    ghost var failures: nat

    /** Whatever was counted before, and by a table that exists already, was never this accounting's own. */
    constructor (acc: Accumulator, kernel: KernelTable, canonical: Subscription -> bool)
      requires AllFit(acc.entries)
      ensures Valid() && !present && !applied && this.acc == acc && this.kernel == kernel && accepted == []
      ensures lost == Losses(map[], map[], kernel.dead) && failures == 0
    {
      this.acc, this.kernel, this.canonical := acc, kernel, canonical;
      bindings, last, present, applied, revision := map[], map[], false, false, "";
      accepted, retired, lost, failures := [], map[], Losses(map[], map[], kernel.dead), 0;
    }

    ghost predicate Valid()
      reads this, acc, kernel
    {
      && AllFit(acc.entries) && Telescopes(accepted, retired, last)
      && Covered(retired, last, present, bindings, kernel.table, kernel.dead)
      && Exact(retired, last, present, kernel.table, kernel.dead, lost)
    }

    /** The accumulator since a moment with these entries and this log. */
    ghost predicate BookedSince(entries: Entries, log: seq<Increment>)
      reads this, acc
    {
      Booked(entries, log, acc.entries, accepted)
    }

    ghost function Mishaps(): Trail
      reads this, kernel
    {
      Trail(lost, failures, kernel.halves, present || kernel.table.NoTable?)
    }

    /** The last reading is what the table has counted. */
    ghost predicate Drained()
      reads this, kernel
    {
      kernel.table.Table? && last == kernel.table.counters
    }

    /** collect. It succeeds exactly when the rows are complete and the accumulator accepts the gains. On
        success exactly the gains since the last reading go into the accumulator's totals of the day; on
        failure nothing changes. */
    method Collect(day: int) returns (r: Collected, ghost incs: seq<Increment>)
      requires Valid()
      modifies this`last, this`present, this`accepted, this`retired, this`failures, acc, kernel`readings
      ensures Valid() && BookedSince(old(acc.entries), old(accepted))
      ensures old(present) ==> |kernel.readings| == |old(kernel.readings)| + 1 && Proper(incs, canonical)
      ensures old(present) ==>
                var reading := kernel.readings[|old(kernel.readings)|];
                && (r.TableMissing? <==> reading.Missing?)
                && (r.Fine? <==> reading.Rows? && Complete(reading.rows, bindings)
                                 && Acceptable(old(acc.entries), incs, day))
                && (reading.Rows? && Complete(reading.rows, bindings) ==>
                      kernel.table.Table? && Gains(incs, old(last), kernel.table.counters, bindings.Values))
      ensures failures == old(failures) + if r.Failed? then 1 else 0
      ensures r.Fine? && old(present) ==> present && Drained() && retired == old(retired)
      ensures r.Fine? && old(present) ==>
                accepted == old(accepted) + incs && acc.entries == Added(old(acc.entries), incs, day)
      ensures !r.Fine? || !old(present) ==> accepted == old(accepted) && acc.entries == old(acc.entries)
      ensures r.Failed? ==> last == old(last) && present && retired == old(retired)
      ensures r.TableMissing? ==> !present && kernel.table.NoTable?
      ensures !old(present) ==> r.Fine? && !present && last == old(last) && kernel.readings == old(kernel.readings)
    {
      incs := [];
      if !present {
        return Fine, incs;
      }
      var reading := kernel.Read();
      match reading {
        case ReadError => r := Failed;
        case Missing =>
          Retire();
          r := TableMissing;
        case Rows(rows) =>
          var ok;
          ok, incs := Attribute(rows, day);
          r := if ok then Fine else Failed;
      }
      failures := failures + if r.Failed? then 1 else 0;
    }

    /** collect, as far as its callers look: a table that was read has been drained. */
    method Drain(day: int) returns (r: Collected)
      requires Valid()
      modifies this`last, this`present, this`accepted, this`retired, this`failures, acc, kernel`readings
      ensures Valid() && BookedSince(old(acc.entries), old(accepted))
      ensures failures == old(failures) + if r.Failed? then 1 else 0
      ensures r.Fine? && old(present) ==> present && Drained() && retired == old(retired)
      ensures r.Failed? ==> last == old(last) && present && retired == old(retired)
      ensures r.TableMissing? ==> !present && kernel.table.NoTable?
      ensures !old(present) ==> r.Fine? && !present && accepted == old(accepted)
    {
      ghost var incs;
      r, incs := Collect(day);
    }

    /** The rest of collect, once rows were read: all of the gains are attributed or none. */
    method Attribute(rows: seq<Row>, day: int) returns (ok: bool, ghost incs: seq<Increment>)
      requires Valid() && present && kernel.table.Table? && Truthful(rows, kernel.table.counters)
      modifies this`last, this`accepted, acc
      ensures Valid() && BookedSince(old(acc.entries), old(accepted))
      ensures ok <==> Complete(rows, bindings) && Acceptable(old(acc.entries), incs, day)
      ensures Proper(incs, canonical)
      ensures Complete(rows, bindings) ==> Gains(incs, old(last), kernel.table.counters, bindings.Values)
      ensures ok ==> last == kernel.table.counters
      ensures ok ==> accepted == old(accepted) + incs && acc.entries == Added(old(acc.entries), incs, day)
      ensures !ok ==> last == old(last) && accepted == old(accepted) && acc.entries == old(acc.entries)
    {
      var complete, current := Readings(rows, bindings, kernel.table.counters);
      if !complete {
        return false, [];
      }
      ok, incs := Charge(current, day);
    }

    /** The gains since the last reading, in one batch. */
    method Charge(current: Counters, day: int) returns (ok: bool, ghost incs: seq<Increment>)
      requires Valid() && present && kernel.table.Table? && current == kernel.table.counters
      modifies this`last, this`accepted, acc
      ensures Valid() && BookedSince(old(acc.entries), old(accepted))
      ensures Proper(incs, canonical) && Gains(incs, old(last), current, bindings.Values)
      ensures ok <==> Acceptable(old(acc.entries), incs, day)
      ensures ok ==> last == current
      ensures ok ==> accepted == old(accepted) + incs && acc.entries == Added(old(acc.entries), incs, day)
      ensures !ok ==> last == old(last) && accepted == old(accepted) && acc.entries == old(acc.entries)
    {
      var increments := Increments(last, current, canonical);
      incs := increments;
      ok := acc.AddBatch(increments, day);
      if ok {
        CollectionTelescopes(accepted, retired, last, current, incs);
        CollectionBooks(old(acc.entries), accepted, incs, day);
        accepted, last := accepted + incs, current;
      }
    }

    /** The table is gone: `present = false`, `last = nil`. */
    method Retire()
      requires Valid() && present && kernel.table.NoTable?
      modifies this`last, this`present, this`retired
      ensures Valid() && !present && retired == Plus(old(retired), old(last))
    {
      RetiringTelescopes(accepted, retired, last, map[]);
      RetiringIsExact(retired, last, map[], kernel.dead, lost);
      retired := Plus(retired, last);
      present, last := false, map[];
    }

    /** A table that was just read is removed without loss. */
    method RemoveTable() returns (ok: bool)
      requires Valid() && present
      modifies this`last, this`present, this`retired, this`lost, kernel`table, kernel`dead, kernel`faults
      ensures Valid() && present == !ok && (ok ==> kernel.table.NoTable?)
      ensures kernel.faults == old(kernel.faults) + if ok then 0 else 1
      ensures lost == old(lost).(undrained := lost.undrained)
      ensures old(Drained()) ==> lost == old(lost)
      ensures retired == if ok then Plus(old(retired), old(last)) else old(retired)
    {
      DestroyedStaysCovered(retired, last, present, bindings, kernel.table, kernel.dead);
      DestroyedIsExact(retired, last, present, kernel.table, kernel.dead, lost, Undrained);
      ghost var lost' := Destroyed(lost, Undrained, last, present, kernel.table);
      ghost var took;
      ok, took := kernel.Remove();
      lost := if took then lost' else lost;
      if ok {
        Retire();
      }
    }

    /** prepare, given the bindings of the desired state. A table whose bindings change is drained before it
        is removed, so that nothing is lost; one that stays has been read. */
    method Prepare(wanted: Bindings, wantedRevision: string, day: int) returns (r: Prepared)
      requires Valid()
      modifies this`last, this`present, this`accepted, this`retired, this`failures, this`lost, acc, kernel
      ensures Valid() && BookedSince(old(acc.entries), old(accepted))
      ensures r.Ready? ==> r.bindings == wanted && (present ==> bindings == wanted && Drained())
      ensures r.Ready? ==>
                (r.skip <==> bindings == wanted && !present
                             && (old(present) || (applied && revision == wantedRevision)))
      ensures r.Refused? ==> present && (failures > old(failures) || kernel.faults > old(kernel.faults))
      ensures lost == old(lost) && Explained(old(Mishaps()), Mishaps()) && kernel.halves == old(kernel.halves)
      ensures old(kernel.faults) <= kernel.faults
      ensures old(present) && old(kernel.table).Table? && !present && r.Ready? ==>
                retired == Plus(old(retired), old(kernel.table).counters)
    {
      var got;
      if bindings == wanted {
        if present {
          got := Drain(day);
          if got.TableMissing? {
            return Ready(wanted, true);
          }
          if got.Failed? {
            return Refused;
          }
        } else if applied && revision == wantedRevision {
          return Ready(wanted, true);
        }
        return Ready(wanted, false);
      }
      if present {
        var gone := DrainAndRemove(day);
        if !gone {
          return Refused;
        }
      }
      return Ready(wanted, false);
    }

    /** prepare, for a table whose bindings change. */
    method DrainAndRemove(day: int) returns (gone: bool)
      requires Valid() && present
      modifies this`last, this`present, this`accepted, this`retired, this`failures, this`lost, acc, kernel
      ensures Valid() && BookedSince(old(acc.entries), old(accepted)) && present == !gone
      ensures !gone ==> failures > old(failures) || kernel.faults > old(kernel.faults)
      ensures lost == old(lost) && failures >= old(failures) && kernel.halves == old(kernel.halves)
      ensures gone ==> kernel.table.NoTable?
      ensures old(kernel.faults) <= kernel.faults
      ensures gone && old(kernel.table).Table? ==> retired == Plus(old(retired), old(kernel.table).counters)
    {
      var got := Drain(day);
      if got.Failed? {
        return false;
      }
      if !present {
        return true;
      }
      gone := RemoveTable();
    }

    /** appliedState. A table that is still present must carry these bindings already. */
    method AppliedState(wanted: Bindings, wantedRevision: string) returns (ok: bool)
      requires Valid() && (present ==> bindings == wanted)
      modifies this`bindings, this`applied, this`revision, this`present, this`last, this`lost, kernel
      ensures Valid() && bindings == wanted && applied && revision == wantedRevision
      ensures present == ok && (!ok ==> kernel.faults > old(kernel.faults))
      ensures old(kernel.faults) <= kernel.faults
      ensures Explained(old(Mishaps()), Mishaps()) && lost == old(lost).(orphaned := lost.orphaned)
      ensures old(present) ==> kernel.table == old(kernel.table) && last == old(last)
      ensures ok && !old(present) ==> kernel.table == Table(wanted, Zeros(wanted)) && last == Zeros(wanted)
    {
      ghost var was := bindings;
      bindings, applied, revision := wanted, true, wantedRevision;
      if present {
        return true;
      }
      ok := InstallTable(was);
    }

    method InstallTable(ghost was: Bindings) returns (ok: bool)
      requires AllFit(acc.entries) && Telescopes(accepted, retired, last) && !present
      requires Covered(retired, last, false, was, kernel.table, kernel.dead)
      requires Exact(retired, last, false, kernel.table, kernel.dead, lost)
      modifies this`present, this`last, this`lost, kernel`table, kernel`dead, kernel`faults, kernel`halves
      ensures Valid() && present == ok && kernel.faults == old(kernel.faults) + if ok then 0 else 1
      ensures Explained(old(Mishaps()), Mishaps()) && lost == old(lost).(orphaned := lost.orphaned)
      ensures ok ==> kernel.table == Table(bindings, Zeros(bindings)) && last == Zeros(bindings)
    {
      ghost var table, dead := kernel.table, kernel.dead;
      InstalledIsCovered(retired, last, was, bindings, table, dead);
      InstallingTelescopes(accepted, retired, last, bindings);
      InstalledIsExact(retired, last, Zeros(bindings), table, Table(bindings, Zeros(bindings)), dead, lost);
      ghost var lost' := Destroyed(lost, Undrained, last, false, table);
      ghost var took;
      ok, took := kernel.Install(bindings);
      lost := if took then lost' else lost;
      if ok {
        present, last := true, Zeros(bindings);
      }
    }

    /** close: drains the table and removes it. `removed` says that the kernel confirmed the removal. Only a
        reading that failed makes it lose bytes. */
    method Close(day: int) returns (ghost removed: bool)
      requires Valid()
      modifies this`last, this`present, this`accepted, this`retired, this`failures, this`lost, acc, kernel
      ensures Valid() && BookedSince(old(acc.entries), old(accepted))
      ensures removed ==> old(present) && !present && kernel.table.NoTable?
      ensures present ==> old(present) && !removed
      ensures old(present) ==> removed == (kernel.faults == old(kernel.faults))
      ensures !old(present) ==> kernel.table == old(kernel.table) && accepted == old(accepted)
      ensures Explained(old(Mishaps()), Mishaps()) && kernel.halves == old(kernel.halves)
      ensures lost == old(lost).(undrained := lost.undrained) && old(kernel.faults) <= kernel.faults
      ensures removed && old(kernel.table).Table? && failures == old(failures) ==>
                retired == Plus(old(retired), old(kernel.table).counters)
    {
      removed := false;
      if !present {
        return;
      }
      var got := Drain(day);
      var gone;
      if !present {
        gone := RemoveMissing();
      } else {
        gone := RemoveTable();
      }
      removed := gone;
    }

    /** close removes the table even when the reading has just found it missing. */
    method RemoveMissing() returns (ok: bool)
      requires Valid() && !present && kernel.table.NoTable?
      modifies kernel`table, kernel`dead, kernel`faults
      ensures Valid() && kernel.table.NoTable?
      ensures kernel.faults == old(kernel.faults) + if ok then 0 else 1
    {
      DestroyedStaysCovered(retired, last, present, bindings, kernel.table, kernel.dead);
      DestroyedIsExact(retired, last, present, kernel.table, kernel.dead, lost, Undrained);
      ghost var took;
      ok, took := kernel.Remove();
    }

    /** Packets pass: the table that exists counts them, whoever installed it. */
    method Traffic(bytes: Counters)
      requires Valid()
      modifies kernel`table
      ensures Valid() && Mishaps() == old(Mishaps())
      ensures kernel.table.NoTable? == old(kernel.table).NoTable?
    {
      if kernel.table.Table? {
        var was := kernel.table.counters;
        var now: Counters := map s | s in was ::
          Totals(Get(was, s, Ingress) + Get(bytes, s, Ingress), Get(was, s, Egress) + Get(bytes, s, Egress));
        CountingIsExact(retired, last, present, kernel.table, now, kernel.dead, lost);
        kernel.table := Table(kernel.table.bindings, now);
      }
    }

    /** Someone else deletes the table: what it counted since the last reading is lost. */
    method ExternalRemoval()
      requires Valid()
      modifies this`lost, kernel`table, kernel`dead
      ensures Valid() && kernel.table.NoTable? && Explained(old(Mishaps()), Mishaps())
      ensures lost == Destroyed(old(lost), Elsewhere, last, present, old(kernel.table))
    {
      DestroyedStaysCovered(retired, last, present, bindings, kernel.table, kernel.dead);
      DestroyedIsExact(retired, last, present, kernel.table, kernel.dead, lost, Elsewhere);
      lost := Destroyed(lost, Elsewhere, last, present, kernel.table);
      kernel.dead := Plus(kernel.dead, Live(kernel.table));
      kernel.table := NoTable;
    }
  }

  // ---- The manager ----

  datatype Fetch = FetchFailed | Fetched(w: Wanted)

  datatype Event =
    | Reconciles(fetch: Fetch, stale: bool, day: int)
    | Passes(bytes: Counters)
    | Vanishes
    | Stops(day: int)
    | AddsElsewhere(incs: seq<Increment>, day: int)
    | Prunes(day: int)

  /** What the manager does to the plane, in order. */
  datatype PlaneCall = ClosesAccounts | ClosesPlane(ok: bool) | Applies(ok: bool)

  /** wireGuardManager. Applying the desired state and failing closed may fail; how stale the last
      success is comes from outside. */
  class Manager {
    const accounts: Accounts
    const validPrefix: Prefix -> bool
    var failedClosed: bool
    ghost var calls: seq<PlaneCall>
    ghost var others: seq<Increment>
    ghost var pruned: Counters

    constructor (accounts: Accounts, validPrefix: Prefix -> bool)
      ensures this.accounts == accounts && !failedClosed && calls == [] && others == [] && pruned == map[]
    {
      this.accounts, this.validPrefix, this.failedClosed := accounts, validPrefix, false;
      this.calls, this.others, this.pruned := [], [], map[];
    }

    /** The accumulator, what was pruned from it, and what went in. */
    ghost function Books(): Account
      reads this, accounts, accounts.acc
    {
      Account(accounts.acc.entries, pruned, accounts.accepted, others)
    }

    /** Since a moment with this trail and so many failed calls, nobody else removed a table, and losses have
        their failures. */
    ghost predicate Accounted(was: Trail, faults: nat)
      reads this, accounts, accounts.kernel
    {
      && Explained(was, accounts.Mishaps()) && accounts.lost.elsewhere == was.lost.elsewhere
      && faults <= accounts.kernel.faults
    }

    /** A reading, a call to the kernel table or the application of the state has failed since. */
    ghost predicate WentWrong(failures: nat, faults: nat, n: nat)
      reads this, accounts, accounts.kernel
    {
      || accounts.failures > failures || accounts.kernel.faults > faults
      || (n < |calls| && calls[n] == Applies(false))
    }

    /** The last thing that happened to the plane since is that the accounting and then the plane closed. */
    ghost predicate EndsClosing(n: nat)
      reads this
    {
      n + 2 <= |calls| && calls[|calls| - 2] == ClosesAccounts && calls[|calls| - 1] == ClosesPlane(failedClosed)
    }

    /** failClosed: the accounting is drained and closed before the plane, and not again once the
        plane has failed closed. */
    method FailClosed(day: int)
      requires accounts.Valid()
      modifies this`failedClosed, this`calls
      modifies accounts`last, accounts`present, accounts`accepted, accounts`retired, accounts`failures
      modifies accounts`lost, accounts.acc, accounts.kernel
      ensures accounts.Valid() && accounts.BookedSince(old(accounts.acc.entries), old(accounts.accepted))
      ensures Accounted(old(accounts.Mishaps()), old(accounts.kernel.faults))
      ensures old(failedClosed) ==>
                && failedClosed && calls == old(calls)
                && accounts.accepted == old(accounts.accepted) && accounts.present == old(accounts.present)
                && accounts.last == old(accounts.last) && accounts.kernel.table == old(accounts.kernel.table)
      ensures !old(failedClosed) ==> calls == old(calls) + [ClosesAccounts, ClosesPlane(failedClosed)]
      ensures !old(failedClosed) && accounts.present ==> accounts.kernel.faults > old(accounts.kernel.faults)
    {
      if !failedClosed {
        ghost var removed := accounts.Close(day);
        calls := calls + [ClosesAccounts];
        var ok: bool := *;
        calls := calls + [ClosesPlane(ok)];
        failedClosed := ok;
      }
    }

    method FailClosedIfStale(stale: bool, day: int)
      requires accounts.Valid()
      modifies this`failedClosed, this`calls
      modifies accounts`last, accounts`present, accounts`accepted, accounts`retired, accounts`failures
      modifies accounts`lost, accounts.acc, accounts.kernel
      ensures accounts.Valid() && accounts.BookedSince(old(accounts.acc.entries), old(accounts.accepted))
      ensures Accounted(old(accounts.Mishaps()), old(accounts.kernel.faults))
      ensures !stale || old(failedClosed) ==>
                && failedClosed == old(failedClosed) && calls == old(calls)
                && accounts.accepted == old(accounts.accepted) && accounts.present == old(accounts.present)
                && accounts.last == old(accounts.last) && accounts.kernel.table == old(accounts.kernel.table)
      ensures stale && !old(failedClosed) ==>
                && calls == old(calls) + [ClosesAccounts, ClosesPlane(failedClosed)]
                && (accounts.present ==> accounts.kernel.faults > old(accounts.kernel.faults))
    {
      if stale {
        FailClosed(day);
      }
    }

    /** One cycle keeps the books, whatever fails in it, and succeeds unless something fails in it. A cycle
        that succeeds leaves a table that was installed for exactly the bindings that were fetched and was
        just read. One that fails closes the plane once the last success is stale. */
    method Cycle(fetch: Fetch, stale: bool, day: int) returns (ok: bool)
      requires accounts.Valid()
      modifies this`failedClosed, this`calls, accounts, accounts.acc, accounts.kernel
      ensures accounts.Valid() && accounts.BookedSince(old(accounts.acc.entries), old(accounts.accepted))
      ensures Accounted(old(accounts.Mishaps()), old(accounts.kernel.faults))
      ensures ok ==> fetch.Fetched? && Coherent(fetch.w, validPrefix, accounts.canonical) && !failedClosed
      ensures ok ==> accounts.present && MapOf(fetch.w.list, accounts.bindings) && accounts.revision == fetch.w.revision
      ensures fetch.Fetched? && Coherent(fetch.w, validPrefix, accounts.canonical) && !ok ==>
                WentWrong(old(accounts.failures), old(accounts.kernel.faults), old(|calls|))
      ensures ok ==> accounts.Drained()
      ensures fetch.FetchFailed? && !stale && accounts.present && accounts.failures == old(accounts.failures) ==>
                accounts.Drained()
      ensures !ok && stale && !old(failedClosed) ==> EndsClosing(old(|calls|))
      ensures !ok && old(failedClosed) ==> failedClosed && |calls| <= old(|calls|) + 1
    {
      if fetch.FetchFailed? {
        ghost var entries, log := accounts.acc.entries, accounts.accepted;
        var got := accounts.Drain(day);
        ghost var entries', log' := accounts.acc.entries, accounts.accepted;
        FailClosedIfStale(stale, day);
        BookedThen(entries, log, entries', log', accounts.acc.entries, accounts.accepted);
        return false;
      }
      var coherent, wanted := BandwidthBindings(fetch.w, validPrefix, accounts.canonical);
      if !coherent {
        FailClosedIfStale(stale, day);
        return false;
      }
      ok := Reconcile(wanted, fetch.w.revision, stale, day);
    }

    method Reconcile(wanted: Bindings, revision: string, stale: bool, day: int) returns (ok: bool)
      requires accounts.Valid()
      modifies this`failedClosed, this`calls, accounts, accounts.acc, accounts.kernel
      ensures accounts.Valid() && accounts.BookedSince(old(accounts.acc.entries), old(accounts.accepted))
      ensures Accounted(old(accounts.Mishaps()), old(accounts.kernel.faults))
      ensures ok ==> !failedClosed && accounts.present && accounts.bindings == wanted && accounts.revision == revision
      ensures !ok ==> WentWrong(old(accounts.failures), old(accounts.kernel.faults), old(|calls|))
      ensures ok ==> accounts.Drained()
      ensures !ok && stale && !old(failedClosed) ==> EndsClosing(old(|calls|))
      ensures !ok && old(failedClosed) ==> failedClosed && |calls| <= old(|calls|) + 1
    {
      ghost var entries, log := accounts.acc.entries, accounts.accepted;
      var ready := accounts.Prepare(wanted, revision, day);
      ghost var entries', log' := accounts.acc.entries, accounts.accepted;
      if ready.Refused? {
        FailClosedIfStale(stale, day);
        ok := false;
      } else {
        ok := ApplyAndInstall(wanted, revision, ready.skip, stale, day);
      }
      BookedThen(entries, log, entries', log', accounts.acc.entries, accounts.accepted);
    }

    /** The rest of the cycle, after prepare. A plane that is open without a table is closed again, unless
        it had failed closed before: then it was applied in this cycle, and it stays so. */
    method ApplyAndInstall(wanted: Bindings, revision: string, skip: bool, stale: bool, day: int) returns (ok: bool)
      requires accounts.Valid() && (accounts.present ==> accounts.bindings == wanted)
      modifies this`failedClosed, this`calls, accounts, accounts.acc, accounts.kernel
      ensures accounts.Valid() && accounts.BookedSince(old(accounts.acc.entries), old(accounts.accepted))
      ensures Accounted(old(accounts.Mishaps()), old(accounts.kernel.faults))
      ensures ok ==> !failedClosed && accounts.present && accounts.bindings == wanted && accounts.revision == revision
      ensures !ok ==> WentWrong(old(accounts.failures), old(accounts.kernel.faults), old(|calls|))
      ensures ok && old(accounts.present ==> accounts.Drained()) ==> accounts.Drained()
      ensures ok ==> calls == old(calls) + if skip && !old(failedClosed) then [] else [Applies(true)]
      ensures !ok && stale && !old(failedClosed) ==> EndsClosing(old(|calls|))
      ensures old(|calls|) <= |calls| && (!ok ==> old(|calls|) < |calls|)
      ensures !ok && (skip || calls[old(|calls|)] == Applies(true)) ==>
                (EndsClosing(old(|calls|)) <==> !old(failedClosed))
      ensures !ok && old(failedClosed) ==>
                failedClosed && (calls == old(calls) + [Applies(true)] || calls == old(calls) + [Applies(false)])
    {
      if !skip || failedClosed {
        var applied: bool := *;
        calls := calls + [Applies(applied)];
        if !applied {
          if accounts.applied && !accounts.present && accounts.bindings != wanted {
            FailClosed(day);
          } else {
            FailClosedIfStale(stale, day);
          }
          return false;
        }
      }
      ok := accounts.AppliedState(wanted, revision);
      if ok {
        failedClosed := false;
      } else {
        FailClosed(day);
      }
    }

    /** Any life of the relay: after every sequence of cycles, traffic, removals by others, shutdowns,
        additions from elsewhere and prunings, what was attributed telescopes, the accumulator holds or
        has pruned exactly what went in, and no byte was attributed twice. Every byte that was counted is
        attributed, not collected yet, or lost; and it was lost only if someone else removed a table, a
        reading could not be used, or an installation replaced a table although it failed. */
    method Lives(events: seq<Event>)
      requires accounts.Valid()
      modifies this, accounts, accounts.acc, accounts.kernel
      ensures Telescopes(accounts.accepted, accounts.retired, accounts.last)
      ensures Squares(old(Books()), Books())
      ensures forall s, d ::
                SumOf(accounts.accepted, s, d)
                <= Get(accounts.kernel.dead, s, d) + Get(Live(accounts.kernel.table), s, d)
      ensures old(|accounts.accepted| == 0 && |others| == 0 && |pruned| == 0) ==> forall s, d ::
                && Kept(accounts.acc.entries, pruned, s, d)
                   == old(SumDays(accounts.acc.entries, s, d)) + SumOf(others, s, d)
                      + Get(accounts.retired, s, d) + Get(accounts.last, s, d)
                && Kept(accounts.acc.entries, pruned, s, d)
                   <= old(SumDays(accounts.acc.entries, s, d)) + SumOf(others, s, d)
                      + Get(accounts.kernel.dead, s, d) + Get(Live(accounts.kernel.table), s, d)
      ensures accounts.present && accounts.kernel.table.Table? ==> accounts.kernel.table.bindings == accounts.bindings
      ensures forall s, d ::
                Get(accounts.kernel.dead, s, d) + Get(Live(accounts.kernel.table), s, d)
                == SumOf(accounts.accepted, s, d) + LostOf(accounts.lost, s, d)
                   + Uncollected(accounts.last, accounts.present, accounts.kernel.table, s, d)
      ensures Explained(old(accounts.Mishaps()), accounts.Mishaps())
      ensures Vanishes !in events ==> accounts.lost.elsewhere == old(accounts.lost.elsewhere)
    {
      ghost var x, was := Books(), accounts.Mishaps();
      for i := 0 to |events|
        invariant accounts.Valid() && Squares(x, Books()) && Explained(was, accounts.Mishaps())
        invariant Vanishes !in events ==> accounts.lost.elsewhere == was.lost.elsewhere
      {
        ghost var y := Books();
        Happens(events[i]);
        SquaresThen(x, y, Books());
      }
      ghost var a := accounts;
      forall s, d
        ensures Get(a.kernel.dead, s, d) + Get(Live(a.kernel.table), s, d)
                == SumOf(a.accepted, s, d) + LostOf(a.lost, s, d) + Uncollected(a.last, a.present, a.kernel.table, s, d)
      {
        CountedIsAccountedFor(a.accepted, a.retired, a.last, a.present, a.kernel.table, a.kernel.dead, a.lost, s, d);
      }
      TotalsAreTheReadings(x, Books(), a.retired, a.last, a.present, a.bindings, a.kernel.table, a.kernel.dead);
    }

    method Happens(event: Event)
      requires accounts.Valid()
      modifies this, accounts, accounts.acc, accounts.kernel
      ensures accounts.Valid() && Squares(old(Books()), Books())
      ensures Explained(old(accounts.Mishaps()), accounts.Mishaps())
      ensures !event.Vanishes? ==> accounts.lost.elsewhere == old(accounts.lost.elsewhere)
    {
      ghost var x := Books();
      match event
      case Reconciles(fetch, stale, day) =>
        var ok := Cycle(fetch, stale, day);
        BookedSquares(x, Books());
      case Passes(bytes) =>
        accounts.Traffic(bytes);
        BookedSquares(x, Books());
      case Vanishes =>
        accounts.ExternalRemoval();
        BookedSquares(x, Books());
      case Stops(day) =>
        FailClosed(day);
        BookedSquares(x, Books());
      case AddsElsewhere(incs, day) => AddElsewhere(incs, day);
      case Prunes(day) => Prune(day);
    }

    /** Other users of the accumulator: the relayed connections add bytes, the reporter prunes days. */
    method AddElsewhere(incs: seq<Increment>, day: int)
      requires accounts.Valid()
      modifies this`others, accounts.acc
      ensures accounts.Valid() && Squares(old(Books()), Books())
    {
      ghost var x := Books();
      var ok := accounts.acc.AddBatch(incs, day);
      if ok {
        others := others + incs;
        OthersSquare(x, Books(), incs, day);
      }
    }

    method Prune(day: int)
      requires accounts.Valid()
      modifies this`pruned, accounts.acc
      ensures accounts.Valid() && Squares(old(Books()), Books())
    {
      ghost var x := Books();
      accounts.acc.PruneBefore(day);
      pruned := Plus(pruned, Dropped(x.entries, day));
      PruningSquares(x, Books(), day);
    }
  }
}
