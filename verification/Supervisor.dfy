/** The worker supervisor of go/cmd/blindportd/worker.go, as a state machine: one step per critical
    section of Reconcile and Shutdown and per stage of a worker's goroutine. */
module Supervisor {
  import opened Claims

  datatype Key = Key(account: string, subscription: string, relay: string)

  datatype MaybeClaim = NoClaim | Claimed(claim: Claim)

  /** workerPlan; its first three fields are the key. */
  datatype Plan = Plan(
    key: Key, edge: string, entitlement: string, upstream: string, challengeUpstream: string,
    tlsMode: string, proxyProtocol: string, claim: MaybeClaim)

  type Id = nat

  /** Stages of a worker's goroutine: started, in `run`, back from it, out of the map, done closed. */
  datatype Phase = Created | Running | Returned | Removed | Done

  datatype Worker = Worker(plan: Plan, phase: Phase, cancelled: bool)

  /** What the holder of reconcileMu is at: nothing; waiting for stopped workers in Reconcile; about
      to start workers; waiting in Shutdown. `goal` is everything Reconcile was asked for. */
  datatype Pc =
    | Idle
    | Stopping(goal: map<Key, Plan>, desired: map<Key, Plan>, waiting: set<Id>)
    | Starting(goal: map<Key, Plan>, desired: map<Key, Plan>)
    | Closing(waiting: set<Id>)

  /** How the last call returned. */
  datatype Verdict = Nothing | Reconciled(goal: map<Key, Plan>) | Failed | Stopped

  /** `all` lists every worker ever started; an Id is its position. */
  datatype State = State(
    workers: map<Key, Id>, all: seq<Worker>, entitlements: map<Key, string>, cancelled: bool, shut: bool, pc: Pc,
    verdict: Verdict)

  datatype Step =
    | BeginReconcile(plans: seq<Plan>)
    | Check
    | Start(order: seq<Key>)
    | BeginShutdown
    | EndShutdown
    | Enter(id: Id)
    | Return(id: Id)
    | Remove(id: Id)
    | Close(id: Id)
    | CancelParent

  // ---- Reconcile's maps ----

  predicate NoDuplicates(plans: seq<Plan>) {
    forall i, j :: 0 <= i < j < |plans| ==> plans[i].key != plans[j].key
  }

  function ByKey(plans: seq<Plan>): (m: map<Key, Plan>)
    ensures forall k :: k in m ==> m[k].key == k
    decreases |plans|
  {
    if |plans| == 0 then map[] else ByKey(plans[..|plans| - 1])[plans[|plans| - 1].key := plans[|plans| - 1]]
  }

  function Entitlements(goal: map<Key, Plan>): map<Key, string> {
    map k | k in goal :: goal[k].entitlement
  }

  /** sameWorkerPlan. */
  predicate SamePlan(a: Plan, b: Plan) {
    && a.key.account == b.key.account && a.key.subscription == b.key.subscription && a.key.relay == b.key.relay
    && a.edge == b.edge && a.upstream == b.upstream && a.challengeUpstream == b.challengeUpstream
    && a.tlsMode == b.tlsMode && a.proxyProtocol == b.proxyProtocol && a.claim.NoClaim? == b.claim.NoClaim?
    && (a.claim.Claimed? ==> a.claim.claim == b.claim.claim)
  }

  /** It compares everything but the entitlement. */
  lemma {:induction false} SamePlanIgnoresEntitlementOnly(a: Plan, b: Plan)
    ensures SamePlan(a, b) <==> a.(entitlement := b.entitlement) == b
  {
    if SamePlan(a, b) {
      assert a.key == b.key;
      assert a.claim == b.claim;
    }
  }

  predicate Wellformed(s: State) {
    forall k :: k in s.workers ==> s.workers[k] < |s.all|
  }

  /** The worker of `k` stays. */
  predicate Kept(s: State, goal: map<Key, Plan>, k: Key)
    requires Wellformed(s) && k in s.workers
  {
    k in goal && SamePlan(s.all[s.workers[k]].plan, goal[k])
  }

  /** What the second loop has when the workers in `todo` are still to be looked at: those that stay
      or may stay, what is left to start, and those to stop. */
  function Staying(s: State, goal: map<Key, Plan>, todo: set<Key>): map<Key, Id>
    requires Wellformed(s)
  {
    map k | k in s.workers && (k in todo || Kept(s, goal, k)) :: s.workers[k]
  }

  function Missing(s: State, goal: map<Key, Plan>, todo: set<Key>): map<Key, Plan>
    requires Wellformed(s)
  {
    map k | k in goal && (k in todo || !(k in s.workers && Kept(s, goal, k))) :: goal[k]
  }

  function Doomed(s: State, goal: map<Key, Plan>, todo: set<Key>): set<Id>
    requires Wellformed(s)
  {
    set k | k in s.workers && k !in todo && !Kept(s, goal, k) :: s.workers[k]
  }

  function Cancel(all: seq<Worker>, ids: set<Id>): (r: seq<Worker>)
    ensures |r| == |all|
    ensures forall i :: 0 <= i < |all| ==> r[i].plan == all[i].plan && r[i].phase == all[i].phase
  {
    seq(|all|, i requires 0 <= i < |all| => if i in ids then all[i].(cancelled := true) else all[i])
  }

  ghost function DoBeginReconcile(s: State, plans: seq<Plan>): State {
    if !s.pc.Idle? || !Wellformed(s) then s
    else if !NoDuplicates(plans) then s.(verdict := Failed)
    else
      var goal := ByKey(plans);
      s.(workers := Staying(s, goal, {}),
         all := Cancel(s.all, Doomed(s, goal, {})),
         entitlements := Entitlements(goal),
         pc := Stopping(goal, Missing(s, goal, {}), Doomed(s, goal, {})),
         verdict := Nothing)
  }

  predicate AllDone(all: seq<Worker>, ids: set<Id>) {
    forall i :: i in ids ==> i < |all| && all[i].phase.Done?
  }

  /** Every stopped worker is done: give up if the context is cancelled. */
  function DoCheck(s: State): State {
    if !s.pc.Stopping? || !AllDone(s.all, s.pc.waiting) then s
    else if s.cancelled then s.(pc := Idle, verdict := Failed)
    else s.(pc := Starting(s.pc.goal, s.pc.desired))
  }

  predicate Lists(order: seq<Key>, desired: map<Key, Plan>) {
    && (forall i :: 0 <= i < |order| ==> order[i] in desired)
    && (forall i, j :: 0 <= i < j < |order| ==> order[i] != order[j])
    && (forall k :: k in desired ==> k in order)
  }

  function Started(order: seq<Key>, desired: map<Key, Plan>): (r: seq<Worker>)
    requires Lists(order, desired)
    ensures |r| == |order|
  {
    seq(|order|, i requires 0 <= i < |order| => Worker(desired[order[i]], Created, false))
  }

  /** Start the desired workers, in any order. */
  ghost function DoStart(s: State, order: seq<Key>): State {
    if !s.pc.Starting? || !Lists(order, s.pc.desired) then s
    else
      s.(workers := s.workers + map k | k in s.pc.desired :: |s.all| + Index(order, k),
         all := s.all + Started(order, s.pc.desired),
         pc := Idle, verdict := Reconciled(s.pc.goal))
  }

  ghost function Index(order: seq<Key>, k: Key): (i: nat)
    ensures k in order ==> i < |order| && order[i] == k
  {
    if k in order then var i: nat :| i < |order| && order[i] == k; i else 0
  }

  ghost function DoBeginShutdown(s: State): State {
    if !s.pc.Idle? then s
    else
      var stop := set k | k in s.workers :: s.workers[k];
      s.(workers := map[], all := Cancel(s.all, stop), cancelled := true, shut := true, pc := Closing(stop),
        verdict := Nothing)
  }

  function DoEndShutdown(s: State): State {
    if !s.pc.Closing? || !AllDone(s.all, s.pc.waiting) then s
    else s.(entitlements := map[], pc := Idle, verdict := Stopped)
  }

  function Advance(s: State, id: Id, from: Phase, to: Phase): State {
    if id < |s.all| && s.all[id].phase == from then s.(all := s.all[id := s.all[id].(phase := to)]) else s
  }

  /** The deferred cleanup: a worker deletes its entry only if it is still its own. */
  function DoRemove(s: State, id: Id): State {
    if id >= |s.all| || !s.all[id].phase.Returned? then s
    else
      var k := s.all[id].plan.key;
      var s' := Advance(s, id, Returned, Removed);
      if k in s.workers && s.workers[k] == id then s'.(workers := s.workers - {k}) else s'
  }

  ghost function Do(s: State, step: Step): State {
    match step
    case BeginReconcile(plans) => DoBeginReconcile(s, plans)
    case Check => DoCheck(s)
    case Start(order) => DoStart(s, order)
    case BeginShutdown => DoBeginShutdown(s)
    case EndShutdown => DoEndShutdown(s)
    case Enter(id) => Advance(s, id, Created, Running)
    case Return(id) => Advance(s, id, Running, Returned)
    case Remove(id) => DoRemove(s, id)
    case Close(id) => Advance(s, id, Removed, Done)
    case CancelParent => s.(cancelled := true)
  }

  ghost function Run(s: State, steps: seq<Step>): State
    decreases |steps|
  {
    if |steps| == 0 then s else Do(Run(s, steps[..|steps| - 1]), steps[|steps| - 1])
  }

  predicate Fresh(s: State) {
    s.workers.Keys == {} && |s.all| == 0 && !s.shut && s.pc.Idle? && s.verdict.Nothing?
  }

  // ---- What every step keeps ----

  /** In `run` or on its way into it. */
  predicate Active(w: Worker) {
    w.phase.Created? || w.phase.Running?
  }

  function Waiting(pc: Pc): set<Id> {
    match pc
    case Stopping(_, _, waiting) => waiting
    case Closing(waiting) => waiting
    case _ => {}
  }

  /** An active worker is the one in the map for its key, or is being waited for. */
  predicate Tracked(s: State, i: Id)
    requires i < |s.all|
  {
    var k := s.all[i].plan.key;
    (k in s.workers && s.workers[k] == i) || i in Waiting(s.pc)
  }

  predicate Desires(s: State) {
    match s.pc
    case Stopping(goal, desired, _) => DesiresOk(s, goal, desired)
    case Starting(goal, desired) => DesiresOk(s, goal, desired)
    case Closing(_) => s.workers.Keys == {}
    case Idle => true
  }

  /** What is still to be started has no worker, and the workers that stay match what is wanted. */
  predicate DesiresOk(s: State, goal: map<Key, Plan>, desired: map<Key, Plan>)
  {
    && (forall k :: k in desired ==> k !in s.workers && k in goal && goal[k] == desired[k] && desired[k].key == k)
    && (forall k :: k in s.workers ==>
       s.workers[k] < |s.all| && k in goal && SamePlan(s.all[s.workers[k]].plan, goal[k]))
  }

  predicate Inv(s: State) {
    && (forall k :: k in s.workers ==> s.workers[k] < |s.all| && s.all[s.workers[k]].plan.key == k)
    && (forall i :: i in Waiting(s.pc) ==> i < |s.all|)
    && (forall i :: 0 <= i < |s.all| && Active(s.all[i]) ==> Tracked(s, i))
    && Exclusive(s.all)
    && Desires(s)
  }

  /** No two active workers have the same key. */
  predicate Exclusive(all: seq<Worker>) {
    forall i, j :: 0 <= i < j < |all| && Active(all[i]) && Active(all[j]) ==> all[i].plan.key != all[j].plan.key
  }

  /** Workers only move on, and one that is no longer active may leave the map. */
  predicate MovesOn(s: State, s': State) {
    && |s'.all| == |s.all| && s'.pc == s.pc
    && (forall i :: 0 <= i < |s.all| ==> s'.all[i].plan == s.all[i].plan)
    && (forall i :: 0 <= i < |s.all| && Active(s'.all[i]) ==> Active(s.all[i]))
    && (forall k :: k in s'.workers ==> k in s.workers && s'.workers[k] == s.workers[k])
    && (forall k :: k in s.workers && s.workers[k] < |s.all| && Active(s'.all[s.workers[k]]) ==> k in s'.workers)
  }

  lemma {:induction false} MovingOnKeeps(s: State, s': State)
    requires Inv(s) && MovesOn(s, s')
    ensures Inv(s')
  {
    forall i | 0 <= i < |s'.all| && Active(s'.all[i])
      ensures Tracked(s', i)
    {
      assert Active(s.all[i]) && Tracked(s, i);
    }
    MovingOnDesires(s, s');
  }

  lemma {:induction false} MovingOnDesires(s: State, s': State)
    requires Desires(s) && MovesOn(s, s')
    ensures Desires(s')
  {
    if s.pc.Closing? {
      assert forall k :: k in s'.workers ==> k in s.workers;
    }
  }

  lemma {:induction false} AdvanceMovesOn(s: State, id: Id, from: Phase, to: Phase)
    requires to.Created? || to.Running? ==> from.Created?
    ensures MovesOn(s, Advance(s, id, from, to))
  {
  }

  lemma {:induction false} AdvanceKeeps(s: State, id: Id, from: Phase, to: Phase)
    requires Inv(s) && (to.Created? || to.Running? ==> from.Created?)
    ensures Inv(Advance(s, id, from, to))
  {
    AdvanceMovesOn(s, id, from, to);
    MovingOnKeeps(s, Advance(s, id, from, to));
  }

  lemma {:induction false} RemoveMovesOn(s: State, id: Id)
    ensures MovesOn(s, DoRemove(s, id)) && DoRemove(s, id).verdict == s.verdict
  {
  }

  lemma {:induction false} RemoveKeeps(s: State, id: Id)
    requires Inv(s)
    ensures Inv(DoRemove(s, id))
  {
    RemoveMovesOn(s, id);
    MovingOnKeeps(s, DoRemove(s, id));
  }

  lemma {:induction false} StopKeeps(s: State, s': State)
    requires Inv(s) && s.pc.Idle? && |s'.all| == |s.all|
    requires forall i :: 0 <= i < |s.all| ==> s'.all[i].plan == s.all[i].plan && s'.all[i].phase == s.all[i].phase
    requires forall k :: k in s'.workers ==> k in s.workers && s'.workers[k] == s.workers[k]
    requires forall k :: k in s.workers && k !in s'.workers ==> s.workers[k] in Waiting(s'.pc)
    requires forall i :: i in Waiting(s'.pc) ==> i < |s.all|
    requires Desires(s')
    ensures Inv(s')
  {
    forall i | 0 <= i < |s'.all| && Active(s'.all[i])
      ensures Tracked(s', i)
    {
      assert Active(s.all[i]) && Tracked(s, i);
    }
    assert forall i :: 0 <= i < |s.all| ==> Active(s'.all[i]) == Active(s.all[i]);
  }

  lemma {:induction false} BeginReconcileKeeps(s: State, plans: seq<Plan>)
    requires Inv(s)
    ensures Inv(DoBeginReconcile(s, plans))
  {
    if s.pc.Idle? && NoDuplicates(plans) {
      BeginDesires(s, plans);
      StopKeeps(s, DoBeginReconcile(s, plans));
    }
  }

  lemma {:induction false} BeginDesires(s: State, plans: seq<Plan>)
    requires s.pc.Idle? && NoDuplicates(plans) && Wellformed(s)
    ensures Desires(DoBeginReconcile(s, plans))
  {
  }

  lemma {:induction false} BeginShutdownKeeps(s: State)
    requires Inv(s)
    ensures Inv(DoBeginShutdown(s))
  {
    if s.pc.Idle? {
      StopKeeps(s, DoBeginShutdown(s));
    }
  }

  /** When all that was waited for is done, every active worker is in the map. */
  lemma {:induction false} WaitOver(s: State, s': State)
    requires Inv(s) && AllDone(s.all, Waiting(s.pc))
    requires s'.workers == s.workers && s'.all == s.all && Waiting(s'.pc) == {} && Desires(s')
    ensures Inv(s')
  {
    forall i | 0 <= i < |s'.all| && Active(s'.all[i])
      ensures Tracked(s', i)
    {
      assert Tracked(s, i);
    }
  }

  lemma {:induction false} StartedWorkers(s: State, order: seq<Key>, i: Id)
    requires s.pc.Starting? && Lists(order, s.pc.desired) && i < |s.all| + |order|
    ensures var s' := DoStart(s, order);
            if i < |s.all| then s'.all[i] == s.all[i]
            else s'.all[i] == Worker(s.pc.desired[order[i - |s.all|]], Created, false)
  {
  }

  lemma {:induction false} StartedMap(s: State, order: seq<Key>, k: Key)
    requires s.pc.Starting? && Lists(order, s.pc.desired) && k in s.pc.desired
    ensures var s' := DoStart(s, order);
            k in s'.workers && |s.all| <= s'.workers[k] < |s'.all| && order[s'.workers[k] - |s.all|] == k
            && s'.all[s'.workers[k]] == Worker(s.pc.desired[k], Created, false)
  {
    StartedWorkers(s, order, |s.all| + Index(order, k));
  }

  lemma {:induction false} StartIsTracked(s: State, order: seq<Key>, i: Id)
    requires Inv(s) && s.pc.Starting? && Lists(order, s.pc.desired) && i < |DoStart(s, order).all|
             && Active(DoStart(s, order).all[i])
    ensures Tracked(DoStart(s, order), i)
  {
    StartedWorkers(s, order, i);
    var k := DoStart(s, order).all[i].plan.key;
    if i < |s.all| {
      assert Tracked(s, i);
      assert k !in s.pc.desired;
    } else {
      assert order[i - |s.all|] == k;
      StartedMap(s, order, k);
    }
  }

  lemma {:induction false} TrackedIsExclusive(s: State)
    requires Waiting(s.pc) == {} && forall i :: 0 <= i < |s.all| && Active(s.all[i]) ==> Tracked(s, i)
    ensures Exclusive(s.all)
  {
    assert forall i :: 0 <= i < |s.all| && Active(s.all[i]) ==> s.workers[s.all[i].plan.key] == i;
  }

  lemma {:induction false} StartKeeps(s: State, order: seq<Key>)
    requires Inv(s)
    ensures Inv(DoStart(s, order))
  {
    if s.pc.Starting? && Lists(order, s.pc.desired) {
      var s' := DoStart(s, order);
      forall i | 0 <= i < |s'.all| && Active(s'.all[i])
        ensures Tracked(s', i)
      {
        StartIsTracked(s, order, i);
      }
      TrackedIsExclusive(s');
      forall k | k in s'.workers
        ensures s'.workers[k] < |s'.all| && s'.all[s'.workers[k]].plan.key == k
      {
        if k in s.pc.desired {
          StartedMap(s, order, k);
        } else {
          StartedWorkers(s, order, s.workers[k]);
        }
      }
    }
  }

  /** The steps of Reconcile and Shutdown after their first. */
  lemma {:induction false} CheckKeeps(s: State)
    requires Inv(s)
    ensures Inv(DoCheck(s))
  {
    if DoCheck(s) != s {
      WaitOver(s, DoCheck(s));
    }
  }

  lemma {:induction false} EndShutdownKeeps(s: State)
    requires Inv(s)
    ensures Inv(DoEndShutdown(s))
  {
    if DoEndShutdown(s) != s {
      WaitOver(s, DoEndShutdown(s));
    }
  }

  lemma {:induction false} CancelKeeps(s: State)
    requires Inv(s)
    ensures Inv(s.(cancelled := true))
  {
    MovingOnKeeps(s, s.(cancelled := true));
  }

  lemma {:induction false} StepKeepsInv(s: State, step: Step)
    requires Inv(s)
    ensures Inv(Do(s, step))
  {
    match step
    case BeginReconcile(plans) => BeginReconcileKeeps(s, plans);
    case Check => CheckKeeps(s);
    case Start(order) => StartKeeps(s, order);
    case BeginShutdown => BeginShutdownKeeps(s);
    case EndShutdown => EndShutdownKeeps(s);
    case Enter(id) => AdvanceKeeps(s, id, Created, Running);
    case Return(id) => AdvanceKeeps(s, id, Running, Returned);
    case Remove(id) => RemoveKeeps(s, id);
    case Close(id) => AdvanceKeeps(s, id, Removed, Done);
    case CancelParent => CancelKeeps(s);
  }

  /** Over all interleavings of Reconcile, Shutdown, cancellation and workers that end by
      themselves, the run bodies of one key never overlap. */
  lemma {:induction false} RunBodiesNeverOverlap(s: State, steps: seq<Step>)
    requires Fresh(s)
    ensures Inv(Run(s, steps)) && Exclusive(Run(s, steps).all)
    decreases |steps|
  {
    if |steps| > 0 {
      RunBodiesNeverOverlap(s, steps[..|steps| - 1]);
      StepKeepsInv(Run(s, steps[..|steps| - 1]), steps[|steps| - 1]);
    }
  }

  // ---- What a successful Reconcile leaves ----

  /** Every worker in the map matches what was wanted, apart from the entitlement. */
  predicate Matches(s: State, goal: map<Key, Plan>) {
    forall k :: k in s.workers ==> s.workers[k] < |s.all| && k in goal && SamePlan(s.all[s.workers[k]].plan, goal[k])
  }

  predicate Settled(s: State) {
    s.verdict.Reconciled? ==> s.pc.Idle? && Matches(s, s.verdict.goal)
  }

  lemma {:induction false} StartMatches(s: State, order: seq<Key>)
    requires Desires(s) && s.pc.Starting? && Lists(order, s.pc.desired)
    ensures Matches(DoStart(s, order), s.pc.goal)
  {
    var s' := DoStart(s, order);
    forall k | k in s'.workers
      ensures s'.workers[k] < |s'.all| && k in s.pc.goal && SamePlan(s'.all[s'.workers[k]].plan, s.pc.goal[k])
    {
      if k in s.pc.desired {
        StartedMap(s, order, k);
      } else {
        StartedWorkers(s, order, s.workers[k]);
      }
    }
  }

  lemma {:induction false} MovingOnSettles(s: State, s': State)
    requires Settled(s) && MovesOn(s, s') && s'.verdict == s.verdict
    ensures Settled(s')
  {
    if s.verdict.Reconciled? {
      forall k | k in s'.workers
        ensures s'.workers[k] < |s'.all| && k in s.verdict.goal
                && SamePlan(s'.all[s'.workers[k]].plan, s.verdict.goal[k])
      {
        assert k in s.workers;
      }
    }
  }

  lemma {:induction false} BeginSettles(s: State, plans: seq<Plan>)
    requires Settled(s) && Wellformed(s)
    ensures Settled(DoBeginReconcile(s, plans))
  {
    if s.pc.Idle? {
      assert !DoBeginReconcile(s, plans).verdict.Reconciled?;
    }
  }

  lemma {:induction false} StartSettles(s: State, order: seq<Key>)
    requires Inv(s) && Settled(s)
    ensures Settled(DoStart(s, order))
  {
    if s.pc.Starting? && Lists(order, s.pc.desired) {
      StartMatches(s, order);
    }
  }

  lemma {:induction false} AdvanceSettles(s: State, id: Id, from: Phase, to: Phase)
    requires Settled(s) && (to.Created? || to.Running? ==> from.Created?)
    ensures Settled(Advance(s, id, from, to))
  {
    AdvanceMovesOn(s, id, from, to);
    MovingOnSettles(s, Advance(s, id, from, to));
  }

  lemma {:induction false} RemoveSettles(s: State, id: Id)
    requires Settled(s)
    ensures Settled(DoRemove(s, id))
  {
    RemoveMovesOn(s, id);
    MovingOnSettles(s, DoRemove(s, id));
  }

  lemma {:induction false} CallSettles(s: State)
    requires Settled(s)
    ensures Settled(DoCheck(s)) && Settled(DoBeginShutdown(s)) && Settled(DoEndShutdown(s))
            && Settled(s.(cancelled := true))
  {
  }

  lemma {:induction false} StepSettles(s: State, step: Step)
    requires Inv(s) && Settled(s)
    ensures Settled(Do(s, step))
  {
    match step
    case BeginReconcile(plans) => BeginSettles(s, plans);
    case Start(order) => StartSettles(s, order);
    case Enter(id) => AdvanceSettles(s, id, Created, Running);
    case Return(id) => AdvanceSettles(s, id, Running, Returned);
    case Remove(id) => RemoveSettles(s, id);
    case Close(id) => AdvanceSettles(s, id, Removed, Done);
    case _ => CallSettles(s);
  }

  /** After a Reconcile that returned no error, and until the next call, all workers match the plans
      it was given, apart from the entitlement; whatever workers end meanwhile. */
  lemma {:induction false} ReconciledWorkersMatch(s: State, steps: seq<Step>)
    requires Fresh(s)
    ensures Settled(Run(s, steps))
    decreases |steps|
  {
    if |steps| > 0 {
      var before := steps[..|steps| - 1];
      ReconciledWorkersMatch(s, before);
      RunBodiesNeverOverlap(s, before);
      StepSettles(Run(s, before), steps[|steps| - 1]);
    }
  }

  /** The worker of a plan that changes in its entitlement only, or not at all, stays in the map, is
      not cancelled and not waited for, and its new entitlement is stored. */
  lemma {:induction false} KeptIsLeftAlone(s: State, plans: seq<Plan>, k: Key)
    requires Inv(s) && s.pc.Idle? && NoDuplicates(plans) && k in s.workers && Kept(s, ByKey(plans), k)
    ensures var s' := DoBeginReconcile(s, plans);
            && k in s'.workers && s'.workers[k] == s.workers[k] && s'.all[s.workers[k]] == s.all[s.workers[k]]
            && s'.pc.Stopping? && k !in s'.pc.desired && s.workers[k] !in s'.pc.waiting
            && k in s'.entitlements && s'.entitlements[k] == ByKey(plans)[k].entitlement
  {
    var s' := DoBeginReconcile(s, plans);
    assert forall j :: j in s.workers && s.workers[j] == s.workers[k] ==> j == k;
    assert s.workers[k] !in s'.pc.waiting;
  }

  lemma {:induction false} StartedAreDesired(s: State, order: seq<Key>)
    requires s.pc.Starting? && Lists(order, s.pc.desired)
    ensures var s' := DoStart(s, order);
            s.all <= s'.all && forall i :: |s.all| <= i < |s'.all| ==> s'.all[i].plan in s.pc.desired.Values
  {
    var s' := DoStart(s, order);
    forall i | |s.all| <= i < |s'.all|
      ensures s'.all[i].plan in s.pc.desired.Values
    {
      StartedWorkers(s, order, i);
    }
  }

  lemma {:induction false} DesiredAreStarted(s: State, order: seq<Key>)
    requires s.pc.Starting? && Lists(order, s.pc.desired)
    ensures var s' := DoStart(s, order);
            forall k :: k in s.pc.desired ==> k in s'.workers && s'.workers[k] < |s'.all|
                                              && s'.all[s'.workers[k]].plan == s.pc.desired[k]
  {
    var s' := DoStart(s, order);
    forall k | k in s.pc.desired
      ensures k in s'.workers && s'.workers[k] < |s'.all| && s'.all[s'.workers[k]].plan == s.pc.desired[k]
    {
      StartedMap(s, order, k);
    }
  }

  predicate Starts(s: State, step: Step) {
    step.Start? && s.pc.Starting? && Lists(step.order, s.pc.desired)
  }

  lemma {:induction false} OthersStartNothing(s: State, step: Step)
    requires !Starts(s, step)
    ensures var s' := Do(s, step);
            && |s'.all| == |s.all|
            && (s'.pc.Starting? ==> s.pc.Starting? || (s.pc.Stopping? && s'.pc.desired == s.pc.desired))
  {
  }

  /** Whatever happens while it waits, what Reconcile starts in the end is what it wanted and had
      no matching worker for when it began. */
  lemma {:induction false} OnlyDesiredAreStarted(s: State, step: Step)
    ensures var s' := Do(s, step);
            if Starts(s, step) then
              && s.all <= s'.all && (forall i :: |s.all| <= i < |s'.all| ==> s'.all[i].plan in s.pc.desired.Values)
              && (forall k :: k in s.pc.desired ==> k in s'.workers && s'.workers[k] < |s'.all|
                                                    && s'.all[s'.workers[k]].plan == s.pc.desired[k])
            else
              && |s'.all| == |s.all|
              && (s'.pc.Starting? ==> s.pc.Starting? || (s.pc.Stopping? && s'.pc.desired == s.pc.desired))
  {
    if Starts(s, step) {
      StartedAreDesired(s, step.order);
      DesiredAreStarted(s, step.order);
    } else {
      OthersStartNothing(s, step);
    }
  }

  /** No new call begins. */
  predicate SameCall(steps: seq<Step>) {
    forall i :: 0 <= i < |steps| ==> !steps[i].BeginReconcile? && !steps[i].BeginShutdown?
  }

  function StillToStart(pc: Pc): set<Key> {
    match pc
    case Stopping(_, desired, _) => desired.Keys
    case Starting(_, desired) => desired.Keys
    case _ => {}
  }

  /** Worker `id` of key `k` was left alone since there were `n` workers. */
  predicate Untouched(s: State, id: Id, k: Key, n: nat, cancelled: bool) {
    && id < n <= |s.all| && k !in StillToStart(s.pc) && s.all[id].cancelled == cancelled
    && forall i :: n <= i < |s.all| ==> s.all[i].plan.key != k
  }

  lemma {:induction false} StartLeavesUntouched(s: State, order: seq<Key>, id: Id, k: Key, n: nat, cancelled: bool)
    requires Desires(s) && s.pc.Starting? && Lists(order, s.pc.desired) && Untouched(s, id, k, n, cancelled)
    ensures Untouched(DoStart(s, order), id, k, n, cancelled)
  {
    var s' := DoStart(s, order);
    StartedAreDesired(s, order);
    forall i | n <= i < |s'.all|
      ensures s'.all[i].plan.key != k
    {
      if i >= |s.all| {
        assert s'.all[i].plan in s.pc.desired.Values;
        var j :| j in s.pc.desired && s.pc.desired[j] == s'.all[i].plan;
      }
    }
  }

  lemma {:induction false} AdvanceLeavesUntouched(
    s: State, i: Id, from: Phase, to: Phase, id: Id, k: Key, n: nat, cancelled: bool)
    requires Untouched(s, id, k, n, cancelled)
    ensures Untouched(Advance(s, i, from, to), id, k, n, cancelled)
  {
  }

  lemma {:induction false} CallLeavesUntouched(s: State, step: Step, id: Id, k: Key, n: nat, cancelled: bool)
    requires Untouched(s, id, k, n, cancelled) && !Starts(s, step)
    requires step.Check? || step.Start? || step.EndShutdown? || step.CancelParent?
    ensures Untouched(Do(s, step), id, k, n, cancelled)
  {
  }

  lemma {:induction false} OthersLeaveUntouched(s: State, step: Step, id: Id, k: Key, n: nat, cancelled: bool)
    requires Untouched(s, id, k, n, cancelled) && !step.BeginReconcile? && !step.BeginShutdown? && !Starts(s, step)
    ensures Untouched(Do(s, step), id, k, n, cancelled)
  {
    if step.Enter? {
      AdvanceLeavesUntouched(s, step.id, Created, Running, id, k, n, cancelled);
    } else if step.Return? {
      AdvanceLeavesUntouched(s, step.id, Running, Returned, id, k, n, cancelled);
    } else if step.Remove? {
      AdvanceLeavesUntouched(s, step.id, Returned, Removed, id, k, n, cancelled);
    } else if step.Close? {
      AdvanceLeavesUntouched(s, step.id, Removed, Done, id, k, n, cancelled);
    } else {
      CallLeavesUntouched(s, step, id, k, n, cancelled);
    }
  }

  lemma {:induction false} StepLeavesUntouched(s: State, step: Step, id: Id, k: Key, n: nat, cancelled: bool)
    requires Inv(s) && Untouched(s, id, k, n, cancelled) && !step.BeginReconcile? && !step.BeginShutdown?
    ensures Untouched(Do(s, step), id, k, n, cancelled)
  {
    if Starts(s, step) {
      StartLeavesUntouched(s, step.order, id, k, n, cancelled);
    } else {
      OthersLeaveUntouched(s, step, id, k, n, cancelled);
    }
  }

  lemma {:induction false} RunLeavesUntouched(s: State, steps: seq<Step>, id: Id, k: Key, n: nat, cancelled: bool)
    requires Inv(s) && Untouched(s, id, k, n, cancelled) && SameCall(steps)
    ensures Inv(Run(s, steps)) && Untouched(Run(s, steps), id, k, n, cancelled)
    decreases |steps|
  {
    if |steps| > 0 {
      var before := steps[..|steps| - 1];
      RunLeavesUntouched(s, before, id, k, n, cancelled);
      StepKeepsInv(Run(s, before), steps[|steps| - 1]);
      StepLeavesUntouched(Run(s, before), steps[|steps| - 1], id, k, n, cancelled);
    }
  }

  /** An entitlement-only change restarts nothing: from the Reconcile that brings it until the next
      call, in every interleaving, the worker's context is not cancelled by the supervisor and no
      second worker of its key is started, even if the worker ends by itself. */
  lemma {:induction false} EntitlementChangeRestartsNothing(s: State, plans: seq<Plan>, k: Key, steps: seq<Step>)
    requires Inv(s) && s.pc.Idle? && NoDuplicates(plans) && k in s.workers && Kept(s, ByKey(plans), k)
             && SameCall(steps)
    ensures var s' := Run(DoBeginReconcile(s, plans), steps);
            Untouched(s', s.workers[k], k, |s.all|, s.all[s.workers[k]].cancelled)
  {
    KeptIsLeftAlone(s, plans, k);
    BeginReconcileKeeps(s, plans);
    RunLeavesUntouched(DoBeginReconcile(s, plans), steps, s.workers[k], k, |s.all|, s.all[s.workers[k]].cancelled);
  }

  // ---- A Reconcile that succeeds has done its work ----

  /** `s0` had a worker of this plan, apart from the entitlement. */
  predicate Had(s0: State, plan: Plan) {
    && plan.key in s0.workers && s0.workers[plan.key] < |s0.all|
    && SamePlan(s0.all[s0.workers[plan.key]].plan, plan)
  }

  /** Since `s0`, the plan has a worker that was kept or one that was started. */
  ghost predicate Served(s0: State, s: State, plan: Plan) {
    Had(s0, plan) || exists i :: |s0.all| <= i < |s.all| && s.all[i].plan == plan
  }

  function Desired(pc: Pc): map<Key, Plan> {
    match pc
    case Stopping(_, desired, _) => desired
    case Starting(_, desired) => desired
    case _ => map[]
  }

  /** A worker in the map of `s0` that is of none of the plans. */
  predicate Unwanted(s0: State, plans: seq<Plan>, k: Key) {
    && k in s0.workers && s0.workers[k] < |s0.all|
    && forall i :: 0 <= i < |plans| ==> !SamePlan(s0.all[s0.workers[k]].plan, plans[i])
  }

  /** An unwanted worker is cancelled, waited for, and done before anything is started. */
  predicate Stops(s: State, id: Id)
    requires id < |s.all|
  {
    && s.all[id].cancelled && (s.pc.Stopping? ==> id in s.pc.waiting)
    && (s.pc.Starting? || s.verdict.Reconciled? ==> s.all[id].phase.Done?)
  }

  predicate Extends(s0: State, s: State) {
    |s0.all| <= |s.all| && forall i :: 0 <= i < |s0.all| ==> s.all[i].plan == s0.all[i].plan
  }

  /** While a Reconcile that began in `s0` runs, each plan had a worker or is still to be started; once
      it has succeeded, each plan is served. */
  ghost predicate Delivers(s0: State, s: State, plan: Plan) {
    && (s.pc.Stopping? || s.pc.Starting? ==>
          Had(s0, plan) || (plan.key in Desired(s.pc) && Desired(s.pc)[plan.key] == plan))
    && (s.verdict.Reconciled? ==> Served(s0, s, plan))
  }

  ghost predicate Delivering(s0: State, s: State, plans: seq<Plan>) {
    && Extends(s0, s) && (forall k :: Unwanted(s0, plans, k) ==> Stops(s, s0.workers[k]))
    && (forall i :: 0 <= i < |plans| ==> Delivers(s0, s, plans[i]))
  }

  lemma {:induction false} ByKeyHas(plans: seq<Plan>, i: nat)
    requires NoDuplicates(plans) && i < |plans|
    ensures plans[i].key in ByKey(plans) && ByKey(plans)[plans[i].key] == plans[i]
    decreases |plans|
  {
    var n := |plans| - 1;
    if i < n {
      ByKeyHas(plans[..n], i);
    }
  }

  lemma {:induction false} ByKeyOnly(plans: seq<Plan>, k: Key) returns (i: nat)
    requires k in ByKey(plans)
    ensures i < |plans| && plans[i] == ByKey(plans)[k]
    decreases |plans|
  {
    i := |plans| - 1;
    if plans[i].key != k {
      i := ByKeyOnly(plans[..i], k);
    }
  }

  /** Without a worker of its plan, every plan is still to be started. */
  lemma {:induction false} BeginWantsTheRest(s0: State, plans: seq<Plan>, i: nat)
    requires Wellformed(s0) && s0.pc.Idle? && NoDuplicates(plans) && i < |plans|
    ensures Delivers(s0, DoBeginReconcile(s0, plans), plans[i])
  {
    ByKeyHas(plans, i);
  }

  /** Every worker of none of the plans is cancelled and waited for. */
  lemma {:induction false} BeginStopsTheUnwanted(s0: State, plans: seq<Plan>, k: Key)
    requires Wellformed(s0) && s0.pc.Idle? && NoDuplicates(plans) && Unwanted(s0, plans, k)
    ensures Stops(DoBeginReconcile(s0, plans), s0.workers[k])
  {
    UnwantedIsNotKept(s0, plans, k);
    assert s0.workers[k] in Doomed(s0, ByKey(plans), {});
  }

  lemma {:induction false} UnwantedIsNotKept(s0: State, plans: seq<Plan>, k: Key)
    requires Wellformed(s0) && Unwanted(s0, plans, k)
    ensures !Kept(s0, ByKey(plans), k)
  {
    if Kept(s0, ByKey(plans), k) {
      var i := ByKeyOnly(plans, k);
      assert false;
    }
  }

  lemma {:induction false} BeginDelivers(s0: State, plans: seq<Plan>)
    requires Wellformed(s0) && s0.pc.Idle? && NoDuplicates(plans)
    ensures Delivering(s0, DoBeginReconcile(s0, plans), plans)
  {
    forall i | 0 <= i < |plans|
      ensures Delivers(s0, DoBeginReconcile(s0, plans), plans[i])
    {
      BeginWantsTheRest(s0, plans, i);
    }
    forall k | Unwanted(s0, plans, k)
      ensures Stops(DoBeginReconcile(s0, plans), s0.workers[k])
    {
      BeginStopsTheUnwanted(s0, plans, k);
    }
  }

  lemma {:induction false} StartServes(s0: State, s: State, order: seq<Key>, plan: Plan)
    requires Extends(s0, s) && Delivers(s0, s, plan) && s.pc.Starting? && Lists(order, s.pc.desired)
    ensures Delivers(s0, DoStart(s, order), plan)
  {
    if !Had(s0, plan) {
      StartedMap(s, order, plan.key);
      var s' := DoStart(s, order);
      assert s'.all[s'.workers[plan.key]].plan == plan;
    }
  }

  lemma {:induction false} StartDelivers(s0: State, s: State, plans: seq<Plan>, order: seq<Key>)
    requires Delivering(s0, s, plans) && s.pc.Starting? && Lists(order, s.pc.desired)
    ensures Delivering(s0, DoStart(s, order), plans)
  {
    forall i | 0 <= i < |plans|
      ensures Delivers(s0, DoStart(s, order), plans[i])
    {
      StartServes(s0, s, order, plans[i]);
    }
  }

  /** Workers go on, cancelled ones stay cancelled and done ones done. */
  predicate GoesOn(s: State, s': State) {
    && |s'.all| == |s.all| && s'.verdict == s.verdict && s'.pc == s.pc
    && forall i :: 0 <= i < |s.all| ==>
         && s'.all[i].plan == s.all[i].plan && s'.all[i].cancelled == s.all[i].cancelled
         && (s.all[i].phase.Done? ==> s'.all[i].phase.Done?)
  }

  lemma {:induction false} GoingOnDelivers(s0: State, s: State, s': State, plans: seq<Plan>)
    requires Delivering(s0, s, plans) && GoesOn(s, s')
    ensures Delivering(s0, s', plans)
  {
    forall i | 0 <= i < |plans|
      ensures Delivers(s0, s', plans[i])
    {
      assert Delivers(s0, s, plans[i]);
      if s.verdict.Reconciled? && !Had(s0, plans[i]) {
        var j :| |s0.all| <= j < |s.all| && s.all[j].plan == plans[i];
        assert s'.all[j].plan == plans[i];
      }
    }
    forall k | Unwanted(s0, plans, k)
      ensures Stops(s', s0.workers[k])
    {
      assert Stops(s, s0.workers[k]);
    }
  }

  lemma {:induction false} CheckDelivers(s0: State, s: State, plans: seq<Plan>)
    requires Delivering(s0, s, plans)
    ensures Delivering(s0, DoCheck(s), plans)
  {
    var s' := DoCheck(s);
    forall i | 0 <= i < |plans|
      ensures Delivers(s0, s', plans[i])
    {
      assert Delivers(s0, s, plans[i]);
    }
    forall k | Unwanted(s0, plans, k)
      ensures Stops(s', s0.workers[k])
    {
      assert Stops(s, s0.workers[k]);
    }
  }

  lemma {:induction false} WorkerGoesOn(s: State, step: Step)
    requires step.Enter? || step.Return? || step.Remove? || step.Close? || step.CancelParent?
    ensures GoesOn(s, Do(s, step))
  {
    if step.Enter? {
      AdvanceGoesOn(s, step.id, Created, Running);
    } else if step.Return? {
      AdvanceGoesOn(s, step.id, Running, Returned);
    } else if step.Remove? {
      AdvanceGoesOn(s, step.id, Returned, Removed);
    } else if step.Close? {
      AdvanceGoesOn(s, step.id, Removed, Done);
    }
  }

  lemma {:induction false} AdvanceGoesOn(s: State, id: Id, from: Phase, to: Phase)
    requires !from.Done?
    ensures GoesOn(s, Advance(s, id, from, to))
  {
  }

  lemma {:induction false} StepDelivers(s0: State, s: State, plans: seq<Plan>, step: Step)
    requires Delivering(s0, s, plans) && !step.BeginReconcile? && !step.BeginShutdown? && !s.pc.Closing?
    ensures Delivering(s0, Do(s, step), plans) && !Do(s, step).pc.Closing?
  {
    if step.Start? {
      if Starts(s, step) {
        StartDelivers(s0, s, plans, step.order);
      }
    } else if step.Check? {
      CheckDelivers(s0, s, plans);
    } else if !step.EndShutdown? {
      WorkerGoesOn(s, step);
      GoingOnDelivers(s0, s, Do(s, step), plans);
    }
  }

  /** In every interleaving from the beginning of a Reconcile until the next call: every worker that is
      of none of the plans is cancelled, and done before anything is started; and once Reconcile has
      returned without error every plan had a worker, which was kept, or has one that was started. */
  lemma {:induction false} ReconcileDelivers(s0: State, plans: seq<Plan>, steps: seq<Step>)
    requires Inv(s0) && s0.pc.Idle? && NoDuplicates(plans) && SameCall(steps)
    ensures var s := Run(DoBeginReconcile(s0, plans), steps); Delivering(s0, s, plans) && !s.pc.Closing?
    decreases |steps|
  {
    if |steps| == 0 {
      BeginDelivers(s0, plans);
    } else {
      var before := steps[..|steps| - 1];
      ReconcileDelivers(s0, plans, before);
      StepDelivers(s0, Run(DoBeginReconcile(s0, plans), before), plans, steps[|steps| - 1]);
    }
  }

  /** And it can succeed: when the stopped workers are done and nothing was cancelled from outside, the
      next two steps start what is missing. */
  lemma {:induction false} ReconcileSucceeds(s: State, order: seq<Key>)
    requires s.pc.Stopping? && AllDone(s.all, s.pc.waiting) && !s.cancelled && Lists(order, s.pc.desired)
    ensures Do(Do(s, Check), Start(order)).verdict == Reconciled(s.pc.goal)
  {
  }

  // ---- Shutdown ----

  predicate ShutOk(s: State) {
    s.shut ==> s.cancelled && !s.pc.Starting? && s.workers.Keys == {}
  }

  lemma {:induction false} StepKeepsShut(s: State, step: Step)
    requires ShutOk(s)
    ensures ShutOk(Do(s, step)) && (s.shut ==> Do(s, step).shut && |Do(s, step).all| == |s.all|)
  {
  }

  lemma {:induction false} RunKeepsShut(s: State, steps: seq<Step>)
    requires Fresh(s)
    ensures ShutOk(Run(s, steps))
    decreases |steps|
  {
    if |steps| > 0 {
      RunKeepsShut(s, steps[..|steps| - 1]);
      StepKeepsShut(Run(s, steps[..|steps| - 1]), steps[|steps| - 1]);
    }
  }

  /** Once Shutdown has begun no worker is ever started, and once it has returned none is in `run`
      or on its way there. */
  lemma {:induction false} NothingStartsAfterShutdown(s: State, steps: seq<Step>, step: Step)
    requires Fresh(s) && Run(s, steps).shut
    ensures var s' := Run(s, steps);
            && |Do(s', step).all| == |s'.all|
            && (s'.pc.Idle? ==> forall i :: 0 <= i < |s'.all| ==> !Active(s'.all[i]))
  {
    RunKeepsShut(s, steps);
    RunBodiesNeverOverlap(s, steps);
    var s' := Run(s, steps);
    StepKeepsShut(s', step);
    if s'.pc.Idle? {
      forall i | 0 <= i < |s'.all|
        ensures !Active(s'.all[i])
      {
        assert Active(s'.all[i]) ==> Tracked(s', i);
      }
    }
  }

  /** Shutdown cancels every worker and waits for it. */
  lemma {:induction false} ShutdownCancelsAll(s: State, k: Key)
    requires Inv(s) && s.pc.Idle? && k in s.workers
    ensures var s' := DoBeginShutdown(s);
            && s'.all[s.workers[k]].cancelled && s'.cancelled && s'.pc.Closing? && s.workers[k] in s'.pc.waiting
  {
    assert s.workers[k] in (set j | j in s.workers :: s.workers[j]);
  }

  // ---- The loops of Reconcile ----

  lemma {:induction false} KeysOf(plans: seq<Plan>, i: nat)
    requires i < |plans|
    ensures ByKey(plans[..i + 1]) == ByKey(plans[..i])[plans[i].key := plans[i]]
  {
    assert plans[..i + 1][..i] == plans[..i];
  }

  lemma {:induction false} KeyFound(plans: seq<Plan>, k: Key) returns (i: nat)
    requires k in ByKey(plans)
    ensures i < |plans| && plans[i].key == k
    decreases |plans|
  {
    i := |plans| - 1;
    if plans[i].key != k {
      i := KeyFound(plans[..i], k);
    }
  }

  lemma {:induction false} KeyTwice(plans: seq<Plan>, i: nat)
    requires i < |plans| && plans[i].key in ByKey(plans[..i])
    ensures !NoDuplicates(plans)
  {
    var j := KeyFound(plans[..i], plans[i].key);
    assert plans[j].key == plans[i].key;
  }

  lemma {:induction false} KeyOnce(plans: seq<Plan>, i: nat, j: nat)
    requires j < i < |plans| && plans[i].key !in ByKey(plans[..i])
    ensures plans[j].key != plans[i].key
  {
    KeyPresent(plans[..i], j);
  }

  lemma {:induction false} KeyPresent(plans: seq<Plan>, j: nat)
    requires j < |plans|
    ensures plans[j].key in ByKey(plans)
    decreases |plans|
  {
    if j < |plans| - 1 {
      KeyPresent(plans[..|plans| - 1], j);
    }
  }

  /** The first loop: the plans by key, or an error for two of the same key. */
  method Collect(plans: seq<Plan>) returns (ok: bool, desired: map<Key, Plan>, entitlements: map<Key, string>)
    ensures ok <==> NoDuplicates(plans)
    ensures ok ==> desired == ByKey(plans) && entitlements == Entitlements(desired)
  {
    desired, entitlements := map[], map[];
    for i := 0 to |plans|
      invariant desired == ByKey(plans[..i]) && entitlements == Entitlements(desired)
      invariant forall j, l :: 0 <= j < l < i ==> plans[j].key != plans[l].key
    {
      var plan := plans[i];
      if plan.key in desired {
        KeyTwice(plans, i);
        return false, desired, entitlements;
      }
      KeysOf(plans, i);
      forall j | 0 <= j < i
        ensures plans[j].key != plan.key
      {
        KeyOnce(plans, i, j);
      }
      desired := desired[plan.key := plan];
      entitlements := entitlements[plan.key := plan.entitlement];
    }
    assert plans[..|plans|] == plans;
    ok := true;
  }

  lemma {:induction false} KeepOne(s: State, goal: map<Key, Plan>, todo: set<Key>, key: Key)
    requires Wellformed(s) && key in todo && key in s.workers && Kept(s, goal, key)
    ensures Staying(s, goal, todo - {key}) == Staying(s, goal, todo)
    ensures Missing(s, goal, todo - {key}) == Missing(s, goal, todo) - {key}
    ensures Doomed(s, goal, todo - {key}) == Doomed(s, goal, todo)
  {
  }

  lemma {:induction false} StopOne(s: State, goal: map<Key, Plan>, todo: set<Key>, key: Key)
    requires Wellformed(s) && key in todo && key in s.workers && !Kept(s, goal, key)
    ensures Staying(s, goal, todo - {key}) == Staying(s, goal, todo) - {key}
    ensures Missing(s, goal, todo - {key}) == Missing(s, goal, todo)
    ensures Doomed(s, goal, todo - {key}) == Doomed(s, goal, todo) + {s.workers[key]}
  {
  }

  /** The second loop: which workers stay, which are stopped, and what is left to start. */
  method Triage(s: State, goal: map<Key, Plan>)
    returns (workers: map<Key, Id>, desired: map<Key, Plan>, stopping: set<Id>)
    requires Wellformed(s)
    ensures workers == Staying(s, goal, {}) && desired == Missing(s, goal, {}) && stopping == Doomed(s, goal, {})
  {
    workers, desired, stopping := s.workers, goal, {};
    var todo := s.workers.Keys;
    while todo != {}
      invariant todo <= s.workers.Keys
      invariant workers == Staying(s, goal, todo) && desired == Missing(s, goal, todo)
                && stopping == Doomed(s, goal, todo)
      decreases |todo|
    {
      var key :| key in todo;
      if key in desired && SamePlan(s.all[s.workers[key]].plan, desired[key]) {
        KeepOne(s, goal, todo, key);
        desired := desired - {key};
      } else {
        StopOne(s, goal, todo, key);
        workers := workers - {key};
        stopping := stopping + {s.workers[key]};
      }
      todo := todo - {key};
    }
  }
}
