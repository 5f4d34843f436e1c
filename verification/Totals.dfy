/** When the totals sent for a subscription and day never decrease, exactly; and runs in which the
    reporter of go/cmd/blindport-relay/bandwidth.go falls short. */
module Totals {
  import opened Bandwidth
  import opened Reporting

  // ---- The guard ----

  /** Wherever `entries` has a key that was sent, it has at least what was sent. */
  ghost predicate SentUnder(sent: seq<Report>, entries: Entries) {
    forall e, k :: e in sent && k in e.reports && k in entries ==> Under(e.reports, entries, k)
  }

  /** The addition is accepted and brings back a key that is no longer in memory with less than was
      already sent for it. */
  ghost predicate UndercutsAt(s: State, incs: seq<Increment>, day: int, e: Report, k: Key) {
    && day <= s.today && Acceptable(s.mem, incs, day)
    && e in s.sent && k in e.reports && k !in s.mem
    && k in Added(s.mem, incs, day) && !Under(e.reports, Added(s.mem, incs, day), k)
  }

  ghost predicate Undercuts(s: State, step: Step) {
    step.Add? && exists e, k :: UndercutsAt(s, step.incs, step.day, e, k)
  }

  ghost predicate NoneUndercuts(s: State, steps: seq<Step>)
    decreases |steps|
  {
    || |steps| == 0
    || (&& NoneUndercuts(s, steps[..|steps| - 1])
        && !Undercuts(Run(s, steps[..|steps| - 1]), steps[|steps| - 1]))
  }

  // ---- Without it the totals never decrease ----

  ghost predicate PassOk(s: State, f: Pass, onDisk: bool) {
    && f.rem <= f.snap.Keys && AllUnder(f.snap, s.mem) && SentUnder(s.sent, f.snap)
    && (onDisk ==> AllUnder(f.snap, s.disk.entries))
  }

  ghost predicate Passing(s: State) {
    match s.pc
    case Idle => true
    case Opening(f) => PassOk(s, f, false)
    case Ready(f) => PassOk(s, f, true)
    case Bumped(f) => PassOk(s, f, true)
    case Sending(f) => PassOk(s, f, true)
    case Closing => true
  }

  /** Memory, ledger and snapshot have at least what was sent, wherever they have the key at all. */
  ghost predicate Dominated(s: State) {
    SentUnder(s.sent, s.mem) && SentUnder(s.sent, s.disk.entries) && Passing(s) && NeverDecreasing(s.sent)
  }

  lemma {:induction false} AddKeeps(s: State, incs: seq<Increment>, day: int)
    requires Dominated(s) && !Undercuts(s, Add(incs, day)) && day <= s.today && Acceptable(s.mem, incs, day)
    ensures Dominated(Do(s, Add(incs, day)))
  {
    var mem := Added(s.mem, incs, day);
    AddedAbove(s.mem, incs, day);
    forall e, k | e in s.sent && k in e.reports && k in mem
      ensures Under(e.reports, mem, k)
    {
      assert !UndercutsAt(s, incs, day, e, k);
      assert k in s.mem ==> Under(e.reports, s.mem, k) && Under(s.mem, mem, k);
    }
    if !s.pc.Idle? && !s.pc.Closing? {
      forall k | k in s.pc.f.snap
        ensures Under(s.pc.f.snap, mem, k)
      {
        assert Under(s.pc.f.snap, s.mem, k) && Under(s.mem, mem, k);
      }
    }
  }

  lemma {:induction false} SendKeeps(s: State, keys: set<Key>, acked: bool)
    requires Dominated(s) && s.pc.Sending? && IsBatch(s.pc.f, keys)
    ensures Dominated(DoSend(s, keys, acked))
  {
    var s', f := DoSend(s, keys, acked), s.pc.f;
    var r := Only(f.snap, keys);
    forall k | k in r
      ensures Under(r, f.snap, k) && Under(r, s.disk.entries, k) && Under(r, s.mem, k)
    {
      assert Under(f.snap, s.disk.entries, k) && Under(f.snap, s.mem, k);
    }
    assert forall e :: e in s'.sent ==> e in s.sent || e.reports == r;
    forall i, j, k | 0 <= i < j < |s'.sent| && k in s'.sent[i].reports && k in s'.sent[j].reports
      ensures Under(s'.sent[i].reports, s'.sent[j].reports, k)
    {
      if j == |s.sent| {
        assert s'.sent[i] in s.sent && s'.sent[j].reports == r;
        assert Under(s'.sent[i].reports, f.snap, k);
      }
    }
  }

  lemma {:induction false} StepKeepsDominated(s: State, step: Step)
    requires Dominated(s) && !Undercuts(s, step)
    ensures Dominated(Do(s, step))
  {
    match step
    case Add(incs, day) =>
      if day <= s.today && Acceptable(s.mem, incs, day) {
        AddKeeps(s, incs, day);
      }
    case Send(keys, acked) =>
      if s.pc.Sending? && IsBatch(s.pc.f, keys) {
        SendKeeps(s, keys, acked);
      }
    case _ => OtherKeeps(s, step);
  }

  lemma {:induction false} OtherKeeps(s: State, step: Step)
    requires Dominated(s) && !step.Add? && !step.Send?
    ensures Dominated(Do(s, step))
  {
  }

  /** In every run in which no addition undercuts, crashes included, the totals sent for each
      subscription and day never decrease. */
  lemma {:induction false} TotalsNeverDecrease(s: State, steps: seq<Step>)
    requires Start(s) && NoneUndercuts(s, steps)
    ensures Dominated(Run(s, steps))
    decreases |steps|
  {
    if |steps| > 0 {
      TotalsNeverDecrease(s, steps[..|steps| - 1]);
      StepKeepsDominated(Run(s, steps[..|steps| - 1]), steps[|steps| - 1]);
    }
  }

  // ---- Only late additions undercut ----

  /** What was sent for days that were not pruned yet is in memory and in the ledger. */
  ghost predicate YoungUnder(sent: seq<Report>, entries: Entries, horizon: int) {
    forall e, k :: e in sent && k in e.reports && k.day >= horizon ==> Under(e.reports, entries, k)
  }

  predicate FlushYoung(s: State, f: Pass, onDisk: bool) {
    s.horizon <= f.begun <= s.today && AllUnder(f.snap, s.mem) && (onDisk ==> AllUnder(f.snap, s.disk.entries))
  }

  predicate FlushesYoung(s: State) {
    match s.pc
    case Idle => true
    case Opening(f) => FlushYoung(s, f, false)
    case Ready(f) => FlushYoung(s, f, true)
    case Bumped(f) => FlushYoung(s, f, true)
    case Sending(f) => FlushYoung(s, f, true)
    case Closing => true
  }

  ghost predicate Young(s: State) {
    && s.horizon <= s.today && FlushesYoung(s)
    && YoungUnder(s.sent, s.mem, s.horizon) && YoungUnder(s.sent, s.disk.entries, s.horizon)
  }

  lemma {:induction false} AddKeepsYoung(s: State, incs: seq<Increment>, day: int)
    requires Young(s)
    ensures Young(Do(s, Add(incs, day)))
  {
    var mem := Added(s.mem, incs, day);
    AddedAbove(s.mem, incs, day);
    forall e, k | e in s.sent && k in e.reports && k.day >= s.horizon
      ensures Under(e.reports, mem, k)
    {
      assert Under(e.reports, s.mem, k) && Under(s.mem, mem, k);
    }
    if !s.pc.Idle? && !s.pc.Closing? {
      forall k | k in s.pc.f.snap
        ensures Under(s.pc.f.snap, mem, k)
      {
        assert Under(s.pc.f.snap, s.mem, k) && Under(s.mem, mem, k);
      }
    }
  }

  lemma {:induction false} SendKeepsYoung(s: State, keys: set<Key>, acked: bool)
    requires Young(s) && s.pc.Sending? && IsBatch(s.pc.f, keys)
    ensures Young(DoSend(s, keys, acked))
  {
    var s', f := DoSend(s, keys, acked), s.pc.f;
    var r := Only(f.snap, keys);
    forall k | k in r
      ensures Under(r, s.disk.entries, k) && Under(r, s.mem, k)
    {
      assert Under(f.snap, s.disk.entries, k) && Under(f.snap, s.mem, k);
    }
    assert forall e :: e in s'.sent ==> e in s.sent || e.reports == r;
  }

  lemma {:induction false} PruneKeepsYoung(s: State, day: int)
    requires Young(s)
    ensures Young(DoPrune(s, day))
  {
    var s' := DoPrune(s, day);
    forall e, k | e in s'.sent && k in e.reports && k.day >= s'.horizon
      ensures Under(e.reports, s'.mem, k)
    {
      assert Under(e.reports, s.mem, k);
    }
  }

  lemma {:induction false} StepKeepsYoung(s: State, step: Step)
    requires Young(s)
    ensures Young(Do(s, step))
  {
    if step.Add? {
      AddKeepsYoung(s, step.incs, step.day);
    } else if step.Send? {
      if s.pc.Sending? && IsBatch(s.pc.f, step.keys) {
        SendKeepsYoung(s, step.keys, step.acked);
      }
    } else if step.Prune? {
      PruneKeepsYoung(s, step.day);
    }
  }

  lemma {:induction false} EveryRunYoung(s: State, steps: seq<Step>)
    requires Start(s)
    ensures Young(Run(s, steps))
    decreases |steps|
  {
    if |steps| > 0 {
      EveryRunYoung(s, steps[..|steps| - 1]);
      StepKeepsYoung(Run(s, steps[..|steps| - 1]), steps[|steps| - 1]);
    }
  }

  lemma {:induction false} YoungNeverUndercuts(s: State, step: Step)
    requires Young(s) && step.Add? && step.day >= s.horizon
    ensures !Undercuts(s, step)
  {
    AddedAbove(s.mem, step.incs, step.day);
    forall e, k
      ensures !UndercutsAt(s, step.incs, step.day, e, k)
    {
      assert e in s.sent && k in e.reports && k.day >= s.horizon ==> Under(e.reports, s.mem, k);
    }
  }

  /** In any run, whatever was added late before, an addition that is not late does not undercut. */
  lemma {:induction false} OnTimeNeverUndercuts(s: State, steps: seq<Step>, add: Step)
    requires Start(s) && add.Add? && add.day >= Run(s, steps).horizon
    ensures !Undercuts(Run(s, steps), add)
  {
    EveryRunYoung(s, steps);
    YoungNeverUndercuts(Run(s, steps), add);
  }

  lemma {:induction false} NoneLateNoneUndercuts(s: State, steps: seq<Step>)
    requires Start(s) && NoneLate(s, steps)
    ensures NoneUndercuts(s, steps)
    decreases |steps|
  {
    if |steps| > 0 {
      var before, last := steps[..|steps| - 1], steps[|steps| - 1];
      NoneLateNoneUndercuts(s, before);
      if last.Add? {
        OnTimeNeverUndercuts(s, before, last);
      }
    }
  }

  // ---- With it they do ----

  lemma {:induction false} BatchWith(all: set<Key>, k: Key) returns (keys: set<Key>)
    requires k in all
    ensures k in keys && keys <= all && |keys| == if |all| <= BATCH then |all| else BATCH
    decreases |all|
  {
    keys := all;
    if |all| > BATCH {
      assert all != {k};
      var x :| x in all && x != k;
      keys := BatchWith(all - {x}, k);
    }
  }

  /** No addition from elsewhere. */
  predicate Undisturbed(steps: seq<Step>) {
    forall i :: 0 <= i < |steps| ==> !steps[i].Add?
  }

  /** A flush of a memory that has less than was sent. */
  lemma {:induction false} FlushDecreases(s: State, i: nat, k: Key) returns (more: seq<Step>)
    requires s.pc.Idle? && s.sequence < MAX_INT64
    requires i < |s.sent| && k in s.sent[i].reports && k in s.mem && !Under(s.sent[i].reports, s.mem, k)
    ensures Undisturbed(more) && !NeverDecreasing(Run(s, more).sent)
  {
    var keys := BatchWith(s.mem.Keys, k);
    FlushReports(s, keys);
    more := FlushSteps(keys);
    var r := Report(s.sequence + 1, Only(s.mem, keys), true);
    assert Run(s, more).sent == s.sent + [r];
    DecreasesAt(s.sent, r, i, k);
  }

  lemma {:induction false} DecreasesAt(sent: seq<Report>, r: Report, i: nat, k: Key)
    requires i < |sent| && k in sent[i].reports && k in r.reports && !Under(sent[i].reports, r.reports, k)
    ensures !NeverDecreasing(sent + [r])
  {
    var all := sent + [r];
    assert all[i] == sent[i] && all[|sent|] == r;
  }

  /** After an addition that undercuts, an undisturbed flush sends less than was sent before. */
  lemma {:induction false} UndercuttingDecreases(s: State, add: Step) returns (more: seq<Step>)
    requires s.pc.Idle? && s.sequence < MAX_INT64 && Undercuts(s, add)
    ensures Undisturbed(more) && !NeverDecreasing(Run(Do(s, add), more).sent)
  {
    var e, k :| UndercutsAt(s, add.incs, add.day, e, k);
    var i :| 0 <= i < |s.sent| && s.sent[i] == e;
    more := FlushDecreases(Do(s, add), i, k);
  }

  // ---- At any moment ----

  /** The flush in progress has sent everything and will prune `k` before anything is sent again. */
  predicate Doomed(s: State, k: Key) {
    s.pc.Ready? && s.pc.f.rem == {} && k.day < s.pc.f.begun
  }

  /** The addition undercuts a key that the flush in progress will not prune at once. */
  ghost predicate UndercutsToStay(s: State, add: Step) {
    add.Add? && exists e, k :: UndercutsAt(s, add.incs, add.day, e, k) && !Doomed(s, k)
  }

  /** What a failing flush leaves: idle, with the same totals for `k` and everything sent still sent. */
  predicate BackWith(s: State, s': State, k: Key) {
    && s'.pc.Idle? && s'.sequence <= s.sequence + 1 && s.sent <= s'.sent
    && k in s'.mem && In(s'.mem, k) == In(s.mem, k) && Out(s'.mem, k) == Out(s.mem, k)
  }

  lemma {:induction false} BatchOf(rem: set<Key>) returns (keys: set<Key>)
    ensures keys <= rem && |keys| == if |rem| <= BATCH then |rem| else BATCH
  {
    keys := rem;
    if k :| k in rem {
      keys := BatchWith(rem, k);
    }
  }

  /** From anywhere in a flush there is a way back to rest that keeps what is not doomed. */
  lemma {:induction false} BackToIdle(s: State, k: Key) returns (steps: seq<Step>)
    requires k in s.mem && !Doomed(s, k) && (s.pc.Ready? ==> s.pc.f.begun <= s.today)
    ensures Undisturbed(steps) && BackWith(s, Run(s, steps), k)
  {
    match s.pc
    case Idle => steps := [];
    case Opening(_) => steps := SaveFails(s, k);
    case Bumped(_) => steps := SaveFails(s, k);
    case Closing => steps := SaveFails(s, k);
    case Sending(f) => steps := SendFails(s, k);
    case Ready(f) => steps := NextSaveFails(s, k, if f.rem == {} then Prune(f.begun) else Bump);
  }

  lemma {:induction false} NextSaveFails(s: State, k: Key, next: Step) returns (steps: seq<Step>)
    requires k in s.mem && !Doomed(s, k) && s.pc.Ready? && s.pc.f.begun <= s.today
    requires next == if s.pc.f.rem == {} then Prune(s.pc.f.begun) else Bump
    ensures Undisturbed(steps) && BackWith(s, Run(s, steps), k)
  {
    steps := [next, Persist(Failed(false))];
    RunTwo(s, next, Persist(Failed(false)));
  }

  lemma {:induction false} SaveFails(s: State, k: Key) returns (steps: seq<Step>)
    requires k in s.mem && (s.pc.Opening? || s.pc.Bumped? || s.pc.Closing?)
    ensures Undisturbed(steps) && BackWith(s, Run(s, steps), k)
  {
    steps := [Persist(Failed(false))];
    RunOne(s, Persist(Failed(false)));
  }

  lemma {:induction false} SendFails(s: State, k: Key) returns (steps: seq<Step>)
    requires k in s.mem && s.pc.Sending?
    ensures Undisturbed(steps) && BackWith(s, Run(s, steps), k)
  {
    var keys := BatchOf(s.pc.f.rem);
    steps := [Send(keys, false)];
    RunOne(s, Send(keys, false));
  }

  /** An addition that undercuts to stay is followed by a decrease, wherever the flush is. */
  lemma {:induction false} UndercuttingDecreasesAnytime(s: State, add: Step) returns (more: seq<Step>)
    requires Young(s) && s.sequence + 1 < MAX_INT64 && UndercutsToStay(s, add)
    ensures Undisturbed(more) && !NeverDecreasing(Run(Do(s, add), more).sent)
  {
    var e, k :| UndercutsAt(s, add.incs, add.day, e, k) && !Doomed(s, k);
    var i :| 0 <= i < |s.sent| && s.sent[i] == e;
    var s1 := Do(s, add);
    var back := BackToIdle(s1, k);
    var s2 := Run(s1, back);
    assert s2.sent[i] == e;
    var flush := FlushDecreases(s2, i, k);
    more := back + flush;
    RunConcat(s1, back, flush);
  }

  /** Only keys that the flush is about to prune are below what was sent. */
  ghost predicate DominatedButDoomed(s: State) {
    && s.pc.Ready? && s.pc.f.rem == {} && SentUnder(s.sent, s.disk.entries) && Passing(s) && NeverDecreasing(s.sent)
    && forall e, k :: e in s.sent && k in e.reports && k in s.mem && k.day >= s.pc.f.begun ==>
         Under(e.reports, s.mem, k)
  }

  lemma {:induction false} DoomedStep(s: State, step: Step)
    requires DominatedButDoomed(s) && !step.Add?
    ensures Dominated(Do(s, step)) || DominatedButDoomed(Do(s, step))
  {
    if step.Prune? {
      var s' := DoPrune(s, step.day);
      if s' != s {
        forall e, k | e in s'.sent && k in e.reports && k in s'.mem
          ensures Under(e.reports, s'.mem, k)
        {
          assert Under(e.reports, s.mem, k);
        }
        assert Dominated(s');
      }
    } else if step.Crash? {
      assert Dominated(Do(s, step));
    }
  }

  lemma {:induction false} DoomedRun(s: State, steps: seq<Step>)
    requires (Dominated(s) || DominatedButDoomed(s)) && Undisturbed(steps)
    ensures Dominated(Run(s, steps)) || DominatedButDoomed(Run(s, steps))
    decreases |steps|
  {
    if |steps| > 0 {
      var before, last := steps[..|steps| - 1], steps[|steps| - 1];
      DoomedRun(s, before);
      if Dominated(Run(s, before)) {
        StepKeepsDominated(Run(s, before), last);
      } else {
        DoomedStep(Run(s, before), last);
      }
    }
  }

  lemma {:induction false} HarmlessAdd(s: State, add: Step)
    requires Dominated(s) && add.Add? && !UndercutsToStay(s, add)
    ensures Dominated(Do(s, add)) || DominatedButDoomed(Do(s, add))
  {
    if !Undercuts(s, add) {
      StepKeepsDominated(s, add);
    } else {
      var e0, k0 :| UndercutsAt(s, add.incs, add.day, e0, k0);
      assert Doomed(s, k0);
      var s', mem := Do(s, add), Added(s.mem, add.incs, add.day);
      AddedAbove(s.mem, add.incs, add.day);
      forall e, k | e in s.sent && k in e.reports && k in mem && k.day >= s.pc.f.begun
        ensures Under(e.reports, mem, k)
      {
        assert !UndercutsAt(s, add.incs, add.day, e, k) || Doomed(s, k);
        assert k in s.mem ==> Under(e.reports, s.mem, k) && Under(s.mem, mem, k);
      }
      forall k | k in s.pc.f.snap
        ensures Under(s.pc.f.snap, mem, k)
      {
        assert Under(s.pc.f.snap, s.mem, k) && Under(s.mem, mem, k);
      }
    }
  }

  /** The exact condition: at any moment of a run that was fine so far, an addition can be followed by
      a decrease, with no other addition, if and only if it undercuts a key that the flush in progress,
      if any, is not about to prune. */
  lemma {:induction false} DecreasesIffUndercut(s: State, steps: seq<Step>, add: Step)
    requires Start(s) && NoneUndercuts(s, steps) && add.Add? && Run(s, steps).sequence + 1 < MAX_INT64
    ensures var s' := Run(s, steps);
            UndercutsToStay(s', add)
            <==> exists more :: Undisturbed(more) && !NeverDecreasing(Run(Do(s', add), more).sent)
  {
    var s' := Run(s, steps);
    TotalsNeverDecrease(s, steps);
    EveryRunYoung(s, steps);
    if UndercutsToStay(s', add) {
      var more := UndercuttingDecreasesAnytime(s', add);
    } else {
      HarmlessAdd(s', add);
      forall more | Undisturbed(more)
        ensures NeverDecreasing(Run(Do(s', add), more).sent)
      {
        DoomedRun(Do(s', add), more);
      }
    }
  }

  // ---- Runs from the start ----

  function One(n: nat): seq<Increment> {
    [Increment(0, true, Ingress, n)]
  }

  lemma {:induction false} SumsOfOne(n: nat, day: int)
    requires n > 0
    ensures Sums(One(n), day).Keys == {Key(0, day)} && SumOf(One(n), 0, Ingress) == n && SumOf(One(n), 0, Egress) == 0
  {
    var incs := One(n);
    assert |incs| == 1 && |incs[..0]| == 0;
    assert Sums(incs, day) == Bandwidth.Bump(Sums(incs[..0], day), incs[0], day);
    assert Sums(incs[..0], day).Keys == {};
    assert SumOf(incs, 0, Ingress) == SumOf(incs[..0], 0, Ingress) + n;
    assert SumOf(incs, 0, Egress) == SumOf(incs[..0], 0, Egress);
  }

  /** A batch for one key, into a memory that has at most that key. */
  lemma {:induction false} OneKeyFits(mem: Entries, sums: Entries, k: Key)
    requires mem.Keys <= {k} && sums.Keys == {k} && KeyFits(mem, sums, k)
    ensures WithinLimits(mem, sums) && Merge(mem, sums).Keys == {k}
  {
    assert NewKeys(mem, sums) <= {k};
    Few(mem.Keys, NewKeys(mem, sums), k);
    assert |mem| == |mem.Keys|;
  }

  /** One increment into a memory with room. */
  lemma {:induction false} OneLands(mem: Entries, n: nat, day: int)
    requires n > 0 && mem.Keys <= {Key(0, day)} && In(mem, Key(0, day)) + n <= MAX_INT64
    requires Out(mem, Key(0, day)) <= MAX_INT64
    ensures Acceptable(mem, One(n), day)
    ensures Added(mem, One(n), day).Keys == {Key(0, day)}
    ensures In(Added(mem, One(n), day), Key(0, day)) == In(mem, Key(0, day)) + n
    ensures Out(Added(mem, One(n), day), Key(0, day)) == Out(mem, Key(0, day))
  {
    var k, sums := Key(0, day), Sums(One(n), day);
    SumsOfOne(n, day);
    SumsPerSubscription(One(n), day, 0);
    OneKeyFits(mem, sums, k);
    BatchAddsItsBytes(mem, One(n), day, k);
  }

  lemma {:induction false} Few(a: set<Key>, b: set<Key>, k: Key)
    requires a <= {k} && b <= {k}
    ensures |a| <= 1 && |b| <= 1
  {
    assert a == {} || a == {k};
    assert b == {} || b == {k};
  }

  /** Ten bytes on the first day, reported and acknowledged. */
  lemma {:induction false} FirstReport(s: State) returns (steps: seq<Step>)
    requires Start(s)
    ensures var s', k := Run(s, steps), Key(0, s.today);
            && s'.mem.Keys == {k} && In(s'.mem, k) == 10 && s'.sequence == 1 && s'.today == s.today
            && s'.pc == Ready(Pass(s'.mem, {}, s.today)) && s'.horizon == s.horizon
            && |s'.sent| == 1 && k in s'.sent[0].reports && In(s'.sent[0].reports, k) == 10
            && Out(s'.mem, k) <= MAX_INT64
    ensures Prompt(s, steps)
  {
    var k := Key(0, s.today);
    var add := Add(One(10), s.today);
    OneLands(s.mem, 10, s.today);
    var s1 := Do(s, add);
    assert |s1.mem.Keys| == 1;
    FlushReports(s1, s1.mem.Keys);
    RunOne(s, add);
    steps := [add] + FlushSteps(s1.mem.Keys);
    RunConcat(s, [add], FlushSteps(s1.mem.Keys));
    PromptOne(s, add);
    PromptUndisturbed(s, [add], FlushSteps(s1.mem.Keys));
  }

  lemma {:induction false} PromptOne(s: State, add: Step)
    requires add.Add? ==> add.day == s.today
    ensures Prompt(s, [add])
  {
    assert [add][..0] == [];
    assert Prompt(s, [add][..0]);
  }

  lemma {:induction false} PromptUndisturbed(s: State, steps: seq<Step>, more: seq<Step>)
    requires Prompt(s, steps) && Undisturbed(more)
    ensures Prompt(s, steps + more)
    decreases |more|
  {
    if |more| == 0 {
      assert steps + more == steps;
    } else {
      var n := |more| - 1;
      PromptUndisturbed(s, steps, more[..n]);
      assert (steps + more)[..|steps| + n] == steps + more[..n];
    }
  }

  /** The day changes and the flush that has sent everything prunes and saves. */
  lemma {:induction false} CloseNextDay(s: State) returns (close: seq<Step>)
    requires s.pc.Ready? && s.pc.f.rem == {} && s.pc.f.begun == s.today && forall k :: k in s.mem ==> k.day == s.today
    ensures var s' := Run(s, close);
            && s'.pc.Idle? && s'.mem.Keys == {} && s'.sent == s.sent && s'.sequence == s.sequence
            && s'.today == s.today + 1
  {
    close := [Tick(1), Prune(s.today + 1)] + [Persist(Done)];
    RunTwo(s, Tick(1), Prune(s.today + 1));
    RunSnoc(s, [Tick(1), Prune(s.today + 1)], Persist(Done));
  }

  /** A run from every start: ten bytes are reported, the day changes, the entry is pruned, five bytes
      come late, and the next report of that day is smaller. */
  lemma {:induction false} LateAdditionRegresses(s: State) returns (steps: seq<Step>)
    requires Start(s)
    ensures !NeverDecreasing(Run(s, steps).sent)
  {
    var first := FirstReport(s);
    var s1, k := Run(s, first), Key(0, s.today);
    var close := CloseNextDay(s1);
    var s2 := Run(s1, close);
    var late := Add(One(5), s.today);
    OneLands(s2.mem, 5, s.today);
    assert UndercutsAt(s2, One(5), s.today, s2.sent[0], k);
    var more := UndercuttingDecreases(s2, late);
    RunConcat(s, first, close);
    RunSnoc(s, first + close, late);
    RunConcat(s, first + close + [late], more);
    steps := first + close + [late] + more;
  }

  /** A run from every start whose additions all read the clock on their own day: ten bytes are
      reported, five more come before midnight, and the flush prunes them after midnight. */
  lemma {:induction false} MidnightFlushLosesBytes(s: State) returns (steps: seq<Step>)
    requires Start(s)
    ensures Prompt(s, steps)
    ensures var s', k := Run(s, steps), Key(0, s.today);
            && s'.pc.Ready? && s'.pc.f.rem == {} && s'.pc.f.begun < s'.today
            && Drops(s', s'.today, k) && !Acknowledged(s'.sent, s'.mem, k)
            && forall e :: e in s'.sent && k in e.reports ==> In(e.reports, k) + 5 == In(s'.mem, k)
  {
    var first := FirstReport(s);
    var s1, k := Run(s, first), Key(0, s.today);
    var add := Add(One(5), s.today);
    OneLands(s1.mem, 5, s.today);
    RunTwoMore(s, first, add, Tick(1));
    steps := first + [add, Tick(1)];
    var s2 := Run(s, steps);
    assert s2.sent == s1.sent && In(s2.mem, k) == 15;
    assert (first + [add])[..|first|] == first;
    assert Prompt(s, first + [add]);
    PromptUndisturbed(s, first + [add], [Tick(1)]);
    assert first + [add] + [Tick(1)] == steps;
    forall e | e in s2.sent
      ensures e == s1.sent[0]
    {
    }
  }
}
