/** Reporting and persisting bandwidth totals (go/cmd/blindport-relay/bandwidth.go), as a state
    machine: one step per critical section, ledger write or request, with a crash possible anywhere.

    A report carries any full batch of what is left to send; the source takes them in sorted order. */
module Reporting {
  import opened Collections
  import opened Bandwidth

  const BATCH := 1000

  /** The ledger file. It is replaced atomically, so it always holds some complete ledger. */
  datatype Ledger = Ledger(sequence: int, entries: Entries)

  /** A report handed to `send`. It counts as sent whether or not the backend acknowledged it. */
  datatype Report = Report(sequence: int, reports: Entries, acked: bool)

  /** One flush: its snapshot, the keys not sent yet and the day on which it began. */
  datatype Pass = Pass(snap: Entries, rem: set<Key>, begun: int)

  /** Where flush is: about to write the ledger for the first time, at the head of its loop, with
      a new sequence number, about to send, or about to write the ledger for the last time. */
  datatype Pc = Idle | Opening(f: Pass) | Ready(f: Pass) | Bumped(f: Pass) | Sending(f: Pass) | Closing

  /** `horizon` is the day of the last pruning. */
  datatype State = State(
    mem: Entries, sequence: int, disk: Ledger, pc: Pc, today: int, horizon: int, sent: seq<Report>)

  datatype Outcome = Done | Failed(stored: bool)

  /** `day` of Add and Prune is the clock reading taken before the accumulator was locked. */
  datatype Step =
    | Add(incs: seq<Increment>, day: int)
    | Tick(days: nat)
    | Begin
    | Persist(outcome: Outcome)
    | Bump
    | Send(keys: set<Key>, acked: bool)
    | Prune(day: int)
    | Crash

  predicate Start(s: State) {
    && s.mem.Keys == {} && s.disk.entries.Keys == {} && s.sequence == 0 && s.disk.sequence == 0
    && s.pc.Idle? && s.horizon <= s.today && |s.sent| == 0
  }

  function Only(entries: Entries, keys: set<Key>): Entries {
    map k | k in entries && k in keys :: entries[k]
  }

  function AfterPersist(pc: Pc): Pc {
    match pc
    case Opening(f) => if f.rem == {} then Idle else Ready(f)
    case Bumped(f) => Sending(f)
    case _ => Idle
  }

  function DoPersist(s: State, o: Outcome): State {
    if !(s.pc.Opening? || s.pc.Bumped? || s.pc.Closing?) then s
    else
      State(
        s.mem, s.sequence,
        if o.Done? || o.stored then Ledger(s.sequence, s.mem) else s.disk,
        if o.Done? then AfterPersist(s.pc) else Idle,
        s.today, s.horizon, s.sent)
  }

  function DoBump(s: State): State {
    if !s.pc.Ready? || s.pc.f.rem == {} then s
    else if s.sequence == MAX_INT64 then s.(pc := Idle)
    else s.(sequence := s.sequence + 1, pc := Bumped(s.pc.f))
  }

  predicate IsBatch(f: Pass, keys: set<Key>) {
    keys <= f.rem && |keys| == if |f.rem| <= BATCH then |f.rem| else BATCH
  }

  function DoSend(s: State, keys: set<Key>, acked: bool): State {
    if !s.pc.Sending? || !IsBatch(s.pc.f, keys) then s
    else
      var f := s.pc.f;
      s.(sent := s.sent + [Report(s.sequence, Only(f.snap, keys), acked)],
         pc := if acked then Ready(Pass(f.snap, f.rem - keys, f.begun)) else Idle)
  }

  function DoPrune(s: State, day: int): State {
    if !s.pc.Ready? || s.pc.f.rem != {} || !(s.pc.f.begun <= day <= s.today) then s
    else s.(mem := Pruned(s.mem, day), horizon := day, pc := Closing)
  }

  ghost function Do(s: State, step: Step): State {
    match step
    case Add(incs, day) =>
      if day <= s.today && Acceptable(s.mem, incs, day) then s.(mem := Added(s.mem, incs, day)) else s
    case Tick(days) => s.(today := s.today + days)
    case Begin => if s.pc.Idle? then s.(pc := Opening(Pass(s.mem, s.mem.Keys, s.today))) else s
    case Persist(o) => DoPersist(s, o)
    case Bump => DoBump(s)
    case Send(keys, acked) => DoSend(s, keys, acked)
    case Prune(day) => DoPrune(s, day)
    case Crash => s.(mem := s.disk.entries, sequence := s.disk.sequence, pc := Idle)
  }

  ghost function Run(s: State, steps: seq<Step>): State
    decreases |steps|
  {
    if |steps| == 0 then s else Do(Run(s, steps[..|steps| - 1]), steps[|steps| - 1])
  }

  // ---- Sequence numbers ----

  predicate Increasing(sent: seq<Report>) {
    forall i, j :: 0 <= i < j < |sent| ==> sent[i].sequence < sent[j].sequence
  }

  predicate SentUpTo(sent: seq<Report>, n: int) {
    forall i :: 0 <= i < |sent| ==> sent[i].sequence <= n
  }

  predicate Numbered(s: State) {
    && s.disk.sequence <= s.sequence <= MAX_INT64
    && Increasing(s.sent) && SentUpTo(s.sent, s.disk.sequence)
    && (s.pc.Bumped? ==> s.disk.sequence < s.sequence)
    && (s.pc.Sending? ==> SentUpTo(s.sent, s.sequence - 1) && s.disk.sequence == s.sequence)
  }

  lemma {:induction false} StepKeepsNumbered(s: State, step: Step)
    requires Numbered(s)
    ensures Numbered(Do(s, step))
  {
  }

  /** Whatever crashes and failures occur, the sequence numbers sent under one boot ID strictly
      increase, and the ledger's number is at least all of them. */
  lemma {:induction false} SequencesStrictlyIncrease(s: State, steps: seq<Step>)
    requires Start(s)
    ensures Numbered(Run(s, steps))
    decreases |steps|
  {
    if |steps| > 0 {
      SequencesStrictlyIncrease(s, steps[..|steps| - 1]);
      StepKeepsNumbered(Run(s, steps[..|steps| - 1]), steps[|steps| - 1]);
    }
  }

  // ---- Totals ----

  /** Both totals of `k` in `a` are at most those in `b`, which has an entry for it. */
  predicate Under(a: Entries, b: Entries, k: Key) {
    k in b && In(a, k) <= In(b, k) && Out(a, k) <= Out(b, k)
  }

  predicate Gone(s: State, k: Key) {
    k.day < s.horizon && k !in s.mem
  }

  /** The totals sent for one subscription and day never decrease. */
  predicate NeverDecreasing(sent: seq<Report>) {
    forall i, j, k :: 0 <= i < j < |sent| && k in sent[i].reports && k in sent[j].reports ==>
      Under(sent[i].reports, sent[j].reports, k)
  }

  predicate MemDominates(s: State) {
    forall k :: k in s.disk.entries ==> Under(s.disk.entries, s.mem, k) || Gone(s, k)
  }

  /** The ledger on disk dominates everything sent, except what was pruned for good. */
  predicate DiskDominates(s: State) {
    forall e, k :: e in s.sent && k in e.reports ==>
      Under(e.reports, s.disk.entries, k) || (Gone(s, k) && k !in s.disk.entries)
  }

  predicate SnapDominates(s: State, snap: Entries) {
    forall e, k :: e in s.sent && k in e.reports ==> Under(e.reports, snap, k) || Gone(s, k)
  }

  predicate AllUnder(a: Entries, b: Entries) {
    forall k :: k in a ==> Under(a, b, k)
  }

  predicate FlushOk(s: State, f: Pass, onDisk: bool) {
    && f.rem <= f.snap.Keys && s.horizon <= f.begun <= s.today
    && AllUnder(f.snap, s.mem) && SnapDominates(s, f.snap)
    && (onDisk ==> AllUnder(f.snap, s.disk.entries))
  }

  predicate PcOk(s: State) {
    match s.pc
    case Idle => true
    case Opening(f) => FlushOk(s, f, false)
    case Ready(f) => FlushOk(s, f, true)
    case Bumped(f) => FlushOk(s, f, true)
    case Sending(f) => FlushOk(s, f, true)
    case Closing => true
  }

  predicate Inv(s: State) {
    && s.horizon <= s.today
    && MemDominates(s) && DiskDominates(s) && PcOk(s) && NeverDecreasing(s.sent)
  }

  /** An addition whose clock reading is older than the last pruning. */
  predicate Late(s: State, step: Step) {
    step.Add? && step.day < s.horizon
  }

  ghost predicate NoneLate(s: State, steps: seq<Step>)
    decreases |steps|
  {
    |steps| == 0 || (NoneLate(s, steps[..|steps| - 1]) && !Late(Run(s, steps[..|steps| - 1]), steps[|steps| - 1]))
  }

  lemma {:induction false} AddedAbove(entries: Entries, incs: seq<Increment>, day: int)
    ensures AllUnder(entries, Added(entries, incs, day))
    ensures forall k :: k in Added(entries, incs, day) && k !in entries ==> k.day == day
  {
    forall k | k in entries
      ensures Under(entries, Added(entries, incs, day), k)
    {
      BatchAddsItsBytes(entries, incs, day, k);
    }
    forall k | k in Added(entries, incs, day) && k !in entries
      ensures k.day == day
    {
      BatchAddsItsBytes(entries, incs, day, k);
    }
  }

  /** Memory grows, and what was pruned stays away. */
  lemma {:induction false} MemGrows(s: State, s': State)
    requires Inv(s) && s' == s.(mem := s'.mem)
    requires AllUnder(s.mem, s'.mem) && forall k :: k in s'.mem && k !in s.mem ==> k.day >= s.horizon
    ensures Inv(s')
  {
    assert forall k :: Gone(s, k) ==> Gone(s', k);
    forall k | k in s.disk.entries
      ensures Under(s.disk.entries, s'.mem, k) || Gone(s', k)
    {
      assert Under(s.disk.entries, s.mem, k) || Gone(s, k);
      assert k in s.mem ==> Under(s.mem, s'.mem, k);
    }
    if !s.pc.Idle? && !s.pc.Closing? {
      forall k | k in s.pc.f.snap
        ensures Under(s.pc.f.snap, s'.mem, k)
      {
        assert Under(s.pc.f.snap, s.mem, k);
        assert Under(s.mem, s'.mem, k);
      }
    }
  }

  lemma {:induction false} BeginOk(s: State)
    requires Inv(s) && s.pc.Idle?
    ensures Inv(Do(s, Begin))
  {
    var s' := Do(s, Begin);
    forall e, k | e in s.sent && k in e.reports
      ensures Under(e.reports, s.mem, k) || Gone(s', k)
    {
      assert Under(e.reports, s.disk.entries, k) || Gone(s, k);
      assert k in s.disk.entries ==> Under(s.disk.entries, s.mem, k) || Gone(s, k);
    }
  }

  lemma {:induction false} PersistOk(s: State, o: Outcome)
    requires Inv(s)
    ensures Inv(DoPersist(s, o))
  {
    var s' := DoPersist(s, o);
    assert forall k :: Gone(s, k) ==> Gone(s', k);
    if s'.disk != s.disk {
      forall e, k | e in s'.sent && k in e.reports
        ensures Under(e.reports, s'.disk.entries, k) || (Gone(s', k) && k !in s'.disk.entries)
      {
        assert Under(e.reports, s.disk.entries, k) || Gone(s, k);
        assert k in s.disk.entries ==> Under(s.disk.entries, s.mem, k) || Gone(s, k);
      }
    }
  }

  lemma {:induction false} SendOk(s: State, keys: set<Key>, acked: bool)
    requires Inv(s) && s.pc.Sending? && IsBatch(s.pc.f, keys)
    ensures Inv(DoSend(s, keys, acked))
  {
    var s', f := DoSend(s, keys, acked), s.pc.f;
    var r := Only(f.snap, keys);
    assert forall k :: Gone(s, k) <==> Gone(s', k);
    forall k | k in r
      ensures Under(r, f.snap, k) && Under(r, s.disk.entries, k) && !Gone(s, k)
    {
      assert Under(f.snap, s.disk.entries, k) && Under(f.snap, s.mem, k);
    }
    forall e, k | e in s'.sent && k in e.reports
      ensures Under(e.reports, s.disk.entries, k) || (Gone(s', k) && k !in s'.disk.entries)
      ensures Under(e.reports, f.snap, k) || Gone(s', k)
    {
      assert e in s.sent || e.reports == r;
    }
    forall i, j, k | 0 <= i < j < |s'.sent| && k in s'.sent[i].reports && k in s'.sent[j].reports
      ensures Under(s'.sent[i].reports, s'.sent[j].reports, k)
    {
      if j == |s.sent| {
        assert s'.sent[i] in s.sent && s'.sent[j].reports == r;
        assert Under(s'.sent[i].reports, f.snap, k);
      }
    }
  }

  lemma {:induction false} PruneOk(s: State, day: int)
    requires Inv(s)
    ensures Inv(DoPrune(s, day))
  {
    var s' := DoPrune(s, day);
    assert forall k :: Gone(s, k) ==> Gone(s', k);
    if s' != s {
      forall k | k in s.disk.entries
        ensures Under(s.disk.entries, s'.mem, k) || Gone(s', k)
      {
        assert Under(s.disk.entries, s.mem, k) || Gone(s, k);
      }
    }
  }

  lemma {:induction false} CrashOk(s: State)
    requires Inv(s)
    ensures Inv(Do(s, Crash))
  {
    var s' := Do(s, Crash);
    forall e, k | e in s'.sent && k in e.reports
      ensures Under(e.reports, s'.disk.entries, k) || (Gone(s', k) && k !in s'.disk.entries)
    {
      assert Under(e.reports, s.disk.entries, k) || (Gone(s, k) && k !in s.disk.entries);
    }
  }

  lemma {:induction false} StepKeepsInv(s: State, step: Step)
    requires Inv(s) && !Late(s, step)
    ensures Inv(Do(s, step))
  {
    match step
    case Add(incs, day) =>
      AddedAbove(s.mem, incs, day);
      if Do(s, step) != s {
        MemGrows(s, Do(s, step));
      }
    case Tick(_) =>
      var s' := Do(s, step);
      assert forall k :: Gone(s, k) <==> Gone(s', k);
    case Begin => if s.pc.Idle? { BeginOk(s); }
    case Persist(o) => PersistOk(s, o);
    case Bump =>
      var s' := Do(s, step);
      assert forall k :: Gone(s, k) <==> Gone(s', k);
    case Send(keys, acked) => if s.pc.Sending? && IsBatch(s.pc.f, keys) { SendOk(s, keys, acked); }
    case Prune(day) => PruneOk(s, day);
    case Crash => CrashOk(s);
  }

  /** In every run without late additions, crashes included, the ledger on disk dominates all that was
      sent, except for entries that were pruned for good. */
  lemma {:induction false} LedgerDominates(s: State, steps: seq<Step>)
    requires Start(s) && NoneLate(s, steps)
    ensures Inv(Run(s, steps))
    decreases |steps|
  {
    if |steps| > 0 {
      LedgerDominates(s, steps[..|steps| - 1]);
      StepKeepsInv(Run(s, steps[..|steps| - 1]), steps[|steps| - 1]);
    }
  }

  // ---- Pieces of runs ----

  lemma {:induction false} RunSnoc(s: State, steps: seq<Step>, step: Step)
    ensures Run(s, steps + [step]) == Do(Run(s, steps), step)
  {
    assert (steps + [step])[..|steps|] == steps;
  }

  lemma {:induction false} RunTwo(s: State, a: Step, b: Step)
    ensures Run(s, [a, b]) == Do(Do(s, a), b)
  {
    RunTwoMore(s, [], a, b);
    assert [] + [a, b] == [a, b];
  }

  lemma {:induction false} RunTwoMore(s: State, steps: seq<Step>, a: Step, b: Step)
    ensures Run(s, steps + [a, b]) == Do(Do(Run(s, steps), a), b)
  {
    RunSnoc(s, steps, a);
    RunSnoc(s, steps + [a], b);
    assert steps + [a] + [b] == steps + [a, b];
  }

  lemma {:induction false} RunOne(s: State, a: Step)
    ensures Run(s, [a]) == Do(s, a)
  {
    RunSnoc(s, [], a);
    assert [] + [a] == [a];
  }

  lemma {:induction false} RunConcat(s: State, first: seq<Step>, second: seq<Step>)
    ensures Run(s, first + second) == Run(Run(s, first), second)
    decreases |second|
  {
    if |second| == 0 {
      assert first + second == first;
    } else {
      var init, last := second[..|second| - 1], second[|second| - 1];
      RunConcat(s, first, init);
      RunSnoc(s, first + init, last);
      RunSnoc(Run(s, first), init, last);
      LastOfConcat(first, second, init, last);
    }
  }

  /** An undisturbed flush up to the answer to its first report. */
  function FlushSteps(keys: set<Key>): seq<Step> {
    [Begin, Persist(Done)] + [Bump, Persist(Done)] + [Send(keys, true)]
  }

  lemma {:induction false} FlushReports(s: State, keys: set<Key>)
    requires s.pc.Idle? && s.sequence < MAX_INT64 && s.mem.Keys != {}
    requires IsBatch(Pass(s.mem, s.mem.Keys, s.today), keys)
    ensures var n := s.sequence + 1;
            Run(s, FlushSteps(keys))
            == State(s.mem, n, Ledger(n, s.mem), Ready(Pass(s.mem, s.mem.Keys - keys, s.today)), s.today, s.horizon,
                     s.sent + [Report(n, Only(s.mem, keys), true)])
  {
    RunTwo(s, Begin, Persist(Done));
    RunTwoMore(s, [Begin, Persist(Done)], Bump, Persist(Done));
    RunSnoc(s, [Begin, Persist(Done)] + [Bump, Persist(Done)], Send(keys, true));
  }

  // ---- What pruning loses ----

  /** The backend acknowledged a report with exactly these totals. */
  ghost predicate Acknowledged(sent: seq<Report>, entries: Entries, k: Key) {
    exists e :: e in sent && e.acked && Equal(e.reports, entries, k)
  }

  predicate Equal(a: Entries, b: Entries, k: Key) {
    k in a && k in b && In(a, k) == In(b, k) && Out(a, k) == Out(b, k)
  }

  /** Every key of the snapshot is still to be sent or was acknowledged. */
  ghost predicate Accounted(s: State, f: Pass) {
    forall k :: k in f.snap ==> k in f.rem || Acknowledged(s.sent, f.snap, k)
  }

  ghost predicate FlushAccounted(s: State) {
    s.pc.Idle? || s.pc.Closing? || Accounted(s, s.pc.f)
  }

  lemma {:induction false} StepAccounts(s: State, step: Step)
    requires FlushAccounted(s)
    ensures FlushAccounted(Do(s, step))
  {
    var s' := Do(s, step);
    if !s'.pc.Idle? && !s'.pc.Closing? && !s.pc.Idle? && !s.pc.Closing? {
      var snap := s.pc.f.snap;
      forall k | k in snap
        ensures k in s'.pc.f.rem || Acknowledged(s'.sent, snap, k)
      {
        if k !in s.pc.f.rem {
          var e :| e in s.sent && e.acked && Equal(e.reports, snap, k);
          assert e in s'.sent;
        } else if k !in s'.pc.f.rem {
          var e := s'.sent[|s.sent|];
          assert e in s'.sent && e.acked && Equal(e.reports, snap, k);
        }
      }
    }
  }

  lemma {:induction false} RunAccounts(s: State, steps: seq<Step>)
    requires Start(s)
    ensures FlushAccounted(Run(s, steps))
    decreases |steps|
  {
    if |steps| > 0 {
      RunAccounts(s, steps[..|steps| - 1]);
      StepAccounts(Run(s, steps[..|steps| - 1]), steps[|steps| - 1]);
    }
  }

  /** When a flush comes to its pruning, the totals of an entry were acknowledged exactly when the
      entry is as it was in the snapshot. So pruning loses just what was added since. */
  lemma {:induction false} PruningLosesLaterBytes(s: State, steps: seq<Step>, k: Key)
    requires Start(s) && NoneLate(s, steps)
    requires var s' := Run(s, steps); s'.pc.Ready? && s'.pc.f.rem == {} && k in s'.mem
    ensures var s' := Run(s, steps); Acknowledged(s'.sent, s'.mem, k) <==> Equal(s'.mem, s'.pc.f.snap, k)
  {
    LedgerDominates(s, steps);
    RunAccounts(s, steps);
    var s' := Run(s, steps);
    var snap := s'.pc.f.snap;
    if Equal(s'.mem, snap, k) {
      var e :| e in s'.sent && e.acked && Equal(e.reports, snap, k);
      assert Equal(e.reports, s'.mem, k);
    }
    if Acknowledged(s'.sent, s'.mem, k) {
      var e :| e in s'.sent && e.acked && Equal(e.reports, s'.mem, k);
      assert Under(e.reports, snap, k) || Gone(s', k);
      assert Under(snap, s'.mem, k);
    }
  }

  /** Pruning on `day` deletes the entry of `k`. */
  predicate Drops(s: State, day: int, k: Key) {
    k in s.mem && k !in DoPrune(s, day).mem
  }

  /** A flush loses bytes if and only if some entry it deletes has changed since its snapshot. */
  lemma {:induction false} FlushLosesBytesIff(s: State, steps: seq<Step>, day: int)
    requires Start(s) && NoneLate(s, steps)
    requires var s' := Run(s, steps); s'.pc.Ready? && s'.pc.f.rem == {} && s'.pc.f.begun <= day <= s'.today
    ensures var s' := Run(s, steps);
            (exists k :: Drops(s', day, k) && !Acknowledged(s'.sent, s'.mem, k))
            <==> exists k :: k in s'.mem && k.day < day && !Equal(s'.mem, s'.pc.f.snap, k)
  {
    var s' := Run(s, steps);
    assert forall k :: Drops(s', day, k) <==> k in s'.mem && k.day < day;
    if k :| Drops(s', day, k) && !Acknowledged(s'.sent, s'.mem, k) {
      PruningLosesLaterBytes(s, steps, k);
    }
    if k :| k in s'.mem && k.day < day && !Equal(s'.mem, s'.pc.f.snap, k) {
      PruningLosesLaterBytes(s, steps, k);
      assert Drops(s', day, k);
    }
  }

  /** Every addition reads the clock on the day it takes effect. */
  ghost predicate Prompt(s: State, steps: seq<Step>)
    decreases |steps|
  {
    || |steps| == 0
    || (&& Prompt(s, steps[..|steps| - 1])
        && var last := steps[|steps| - 1];
           last.Add? ==> last.day == Run(s, steps[..|steps| - 1]).today)
  }

  /** Days before the flush began are as the snapshot has them. */
  predicate PastSettled(s: State) {
    s.pc.Idle? || s.pc.Closing?
    || (s.pc.f.begun <= s.today && forall k :: k in s.mem && k.day < s.pc.f.begun ==> Equal(s.mem, s.pc.f.snap, k))
  }

  lemma {:induction false} StepSettles(s: State, step: Step)
    requires PastSettled(s) && (step.Add? ==> step.day == s.today)
    ensures PastSettled(Do(s, step))
  {
    if step.Add? && !s.pc.Idle? && !s.pc.Closing? {
      var s' := Do(s, step);
      forall k | k in s'.mem && k.day < s.pc.f.begun
        ensures Equal(s'.mem, s.pc.f.snap, k)
      {
        BatchAddsItsBytes(s.mem, step.incs, step.day, k);
        assert k in s.mem && Equal(s.mem, s.pc.f.snap, k);
      }
    }
  }

  lemma {:induction false} PromptRunSettles(s: State, steps: seq<Step>)
    requires Start(s) && Prompt(s, steps)
    ensures PastSettled(Run(s, steps)) && NoneLate(s, steps)
    decreases |steps|
  {
    if |steps| > 0 {
      var before := steps[..|steps| - 1];
      PromptRunSettles(s, before);
      StepSettles(Run(s, before), steps[|steps| - 1]);
      LedgerDominates(s, before);
    }
  }

  /** A flush that begins and prunes on one day loses nothing: whatever it deletes was
      acknowledged in full. */
  lemma {:induction false} SameDayPruningLosesNothing(s: State, steps: seq<Step>, k: Key)
    requires Start(s) && Prompt(s, steps)
    requires var s' := Run(s, steps); s'.pc.Ready? && s'.pc.f.rem == {} && k in s'.mem && k.day < s'.pc.f.begun
    ensures var s' := Run(s, steps); Acknowledged(s'.sent, s'.mem, k)
  {
    PromptRunSettles(s, steps);
    PruningLosesLaterBytes(s, steps, k);
  }
}
