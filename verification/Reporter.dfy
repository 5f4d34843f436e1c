/** The reporter of go/cmd/blindport-relay/bandwidth.go. A flush performs a run of the state machine
    in Reporting, where the additions that may come between its steps are modelled. */
module Reporter {
  import opened Bandwidth
  import opened Reporting

  /** The distinct keys of a snapshot, in the order they are sent. */
  ghost predicate Lists(order: seq<Key>, keys: set<Key>) {
    && (forall i, j :: 0 <= i < j < |order| ==> order[i] != order[j])
    && (forall k :: k in keys <==> k in order)
  }

  function Chunk(order: seq<Key>, start: nat, end: nat): set<Key>
    requires start <= end <= |order|
  {
    set i | start <= i < end :: order[i]
  }

  lemma {:induction false} ChunkSize(order: seq<Key>, keys: set<Key>, start: nat, end: nat)
    requires Lists(order, keys) && start <= end <= |order|
    ensures |Chunk(order, start, end)| == end - start
    decreases end - start
  {
    if start < end {
      ChunkSize(order, keys, start, end - 1);
      assert Chunk(order, start, end) == Chunk(order, start, end - 1) + {order[end - 1]};
      assert order[end - 1] !in Chunk(order, start, end - 1);
    }
  }

  lemma {:induction false} ChunkRest(order: seq<Key>, keys: set<Key>, start: nat, end: nat)
    requires Lists(order, keys) && start <= end <= |order|
    ensures Chunk(order, start, |order|) - Chunk(order, start, end) == Chunk(order, end, |order|)
    ensures Chunk(order, start, end) <= Chunk(order, start, |order|)
  {
  }

  lemma {:induction false} ChunkIsBatch(order: seq<Key>, keys: set<Key>, f: Pass, start: nat, end: nat)
    requires Lists(order, keys) && start < |order| && f.rem == Chunk(order, start, |order|)
    requires end == if start + BATCH > |order| then |order| else start + BATCH
    ensures IsBatch(f, Chunk(order, start, end))
  {
    ChunkSize(order, keys, start, end);
    ChunkSize(order, keys, start, |order|);
    ChunkRest(order, keys, start, end);
  }

  class Reporter {
    const acc: Accumulator
    var sequence: int
    var disk: Ledger
    ghost var today: int
    ghost var horizon: int
    ghost var sent: seq<Report>
    ghost var failures: nat

    /** newBandwidthReporter: the totals and the sequence number of the ledger. A run of the machine over
        several boots goes on from there. */
    constructor (ledger: Ledger, day: int)
      ensures disk == ledger && sequence == ledger.sequence && fresh(acc) && acc.entries == ledger.entries
      ensures today == day && horizon == day && |sent| == 0
      ensures forall s: State :: s.disk == ledger && s.today == day ==>
                At(Idle) == Do(s, Crash).(horizon := horizon, sent := sent)
    {
      acc := new Accumulator();
      sequence, disk, today, horizon, sent := ledger.sequence, ledger, day, day, [];
      new;
      acc.entries := ledger.entries;
    }

    /** A ledger write or a request failed since, or the sequence numbers are used up. */
    ghost predicate Excused(before: nat)
      reads this
    {
      failures > before || sequence == MAX_INT64
    }

    ghost function At(pc: Pc): State
      reads this, acc
    {
      State(acc.entries, sequence, disk, pc, today, horizon, sent)
    }

    /** persistLocked. A write that reports an error may have replaced the file all the same. */
    method PersistLocked(ghost pc: Pc, ghost begin: State, ghost steps: seq<Step>)
      returns (ok: bool, ghost more: seq<Step>)
      requires pc.Opening? || pc.Bumped? || pc.Closing?
      requires Run(begin, steps) == At(pc)
      modifies this`disk, this`failures
      ensures failures == old(failures) + if ok then 0 else 1
      ensures Run(begin, more) == At(if ok then AfterPersist(pc) else Idle)
      ensures ok ==> disk == Ledger(sequence, acc.entries)
    {
      ok := *;
      var stored: bool := *;
      if ok || stored {
        disk := Ledger(sequence, acc.entries);
      }
      failures := failures + if ok then 0 else 1;
      ghost var o := if ok then Done else Failed(stored);
      more := steps + [Persist(o)];
      RunSnoc(begin, steps, Persist(o));
    }

    method Snapshot() returns (order: seq<Key>)
      ensures Lists(order, acc.entries.Keys)
    {
      order := [];
      var todo := acc.entries.Keys;
      while todo != {}
        invariant Lists(order, acc.entries.Keys - todo) && todo <= acc.entries.Keys
        decreases |todo|
      {
        var k :| k in todo;
        order, todo := order + [k], todo - {k};
      }
    }

    /** The loop of flush, up to an error or until all is sent. */
    method SendAll(order: seq<Key>, snap: Entries, ghost f: Pass, ghost begin: State, ghost before: seq<Step>)
      returns (ok: bool, ghost steps: seq<Step>)
      requires Lists(order, snap.Keys) && f == Pass(snap, snap.Keys, f.begun)
      requires acc.entries == snap && Run(begin, before) == At(Ready(f)) && FlushAccounted(At(Ready(f)))
      modifies this`sequence, this`disk, this`sent, this`failures
      ensures ok ==> failures == old(failures)
      ensures !ok ==> Excused(old(failures))
      ensures ok ==> Run(begin, steps) == At(Ready(Pass(snap, {}, f.begun)))
      ensures ok ==> forall k :: k in snap ==> Acknowledged(sent, snap, k)
      ensures !ok ==> Run(begin, steps) == At(Idle)
    {
      var start := 0;
      steps := before;
      assert Chunk(order, 0, |order|) == snap.Keys;
      while start < |order|
        invariant start <= |order|
        invariant Run(begin, steps) == At(Ready(Pass(snap, Chunk(order, start, |order|), f.begun)))
        invariant FlushAccounted(Run(begin, steps)) && failures == old(failures)
      {
        var end := if start + BATCH > |order| then |order| else start + BATCH;
        ghost var g := Pass(snap, Chunk(order, start, |order|), f.begun);
        assert order[start] in g.rem;
        RunSnoc(begin, steps, Bump);
        steps := steps + [Bump];
        if sequence == MAX_INT64 {
          return false, steps;
        }
        sequence := sequence + 1;
        var saved;
        saved, steps := PersistLocked(Bumped(g), begin, steps);
        if !saved {
          return false, steps;
        }
        ok, steps := SendBatch(order, snap, start, end, g, begin, steps);
        if !ok {
          return false, steps;
        }
        start := end;
      }
      ok := true;
      assert Chunk(order, start, |order|) == {};
    }

    method SendBatch(
      order: seq<Key>, snap: Entries, start: nat, end: nat, ghost g: Pass, ghost begin: State, ghost before: seq<Step>)
      returns (ok: bool, ghost steps: seq<Step>)
      requires Lists(order, snap.Keys) && start < |order|
      requires end == if start + BATCH > |order| then |order| else start + BATCH
      requires g == Pass(snap, Chunk(order, start, |order|), g.begun)
      requires Run(begin, before) == At(Sending(g)) && Accounted(At(Sending(g)), g)
      modifies this`sent, this`failures
      ensures failures == old(failures) + if ok then 0 else 1
      ensures Run(begin, steps) == At(if ok then Ready(Pass(snap, Chunk(order, end, |order|), g.begun)) else Idle)
      ensures FlushAccounted(Run(begin, steps))
    {
      ok := *;
      var keys := Chunk(order, start, end);
      ChunkIsBatch(order, snap.Keys, g, start, end);
      ChunkRest(order, snap.Keys, start, end);
      RunSnoc(begin, before, Send(keys, ok));
      StepAccounts(At(Sending(g)), Send(keys, ok));
      failures := failures + if ok then 0 else 1;
      sent := sent + [Report(sequence, Only(snap, keys), ok)];
      steps := before + [Send(keys, ok)];
    }

    /** flush, on a clock that reads `now` when it begins and `later` when it prunes. It succeeds unless a
        ledger write or a request fails or no sequence number is left. */
    method Flush(now: int, later: int) returns (ok: bool, ghost steps: seq<Step>)
      requires today <= now <= later
      modifies this, acc
      ensures !ok ==> Excused(old(failures))
      ensures Run(old(At(Idle)), steps) == At(Idle)
      ensures ok ==> disk == Ledger(sequence, acc.entries)
      ensures ok ==> forall k :: k in old(acc.entries) ==> Acknowledged(sent, old(acc.entries), k)
      ensures ok ==> acc.entries == Pruned(old(acc.entries), later)
    {
      ghost var begin := At(Idle);
      ghost var f := Pass(acc.entries, acc.entries.Keys, now);
      RunTwo(begin, Tick(now - today), Begin);
      steps := [Tick(now - today), Begin];
      today := now;
      var snap := acc.entries;
      var order := Snapshot();
      ok, steps := PersistLocked(Opening(f), begin, steps);
      if !ok || |order| == 0 {
        assert |order| == 0 ==> f.rem == {};
        return;
      }
      assert order[0] in f.rem;
      ok, steps := SendAll(order, snap, f, begin, steps);
      if !ok {
        return;
      }
      ok, steps := PruneAndSave(later, snap, now, begin, steps);
    }

    method PruneAndSave(later: int, ghost snap: Entries, ghost now: int, ghost begin: State, ghost before: seq<Step>)
      returns (ok: bool, ghost steps: seq<Step>)
      requires today == now <= later && Run(begin, before) == At(Ready(Pass(snap, {}, now)))
      modifies this`disk, this`today, this`horizon, this`failures, acc
      ensures failures == old(failures) + if ok then 0 else 1
      ensures Run(begin, steps) == At(Idle)
      ensures acc.entries == Pruned(old(acc.entries), later)
      ensures ok ==> disk == Ledger(sequence, acc.entries)
    {
      RunTwoMore(begin, before, Tick(later - now), Prune(later));
      steps := before + [Tick(later - now), Prune(later)];
      acc.PruneBefore(later);
      today, horizon := later, later;
      ok, steps := PersistLocked(Closing, begin, steps);
    }
  }
}
