/** The life of a worker (go/cmd/blindportd/worker.go): the map lists only workers that have not cleaned up
    after themselves, so one that ended is started again; and every call can come to its end. */
module Lifecycle {
  import opened Supervisor

  // ---- A worker that ended is wanted again ----

  /** It has not taken itself out of the map. */
  predicate Alive(w: Worker) {
    w.phase.Created? || w.phase.Running? || w.phase.Returned?
  }

  predicate ListsTheLiving(s: State) {
    forall k :: k in s.workers ==> s.workers[k] < |s.all| && Alive(s.all[s.workers[k]])
  }

  lemma {:induction false} AdvanceListsTheLiving(s: State, id: Id, from: Phase, to: Phase)
    requires ListsTheLiving(s) && (to.Running? || to.Returned? || from.Removed?)
    ensures ListsTheLiving(Advance(s, id, from, to))
  {
  }

  lemma {:induction false} StaysListed(s: State, id: Id, k: Key)
    requires k in s.workers && s.workers[k] < |s.all| && Alive(s.all[s.workers[k]])
    requires s.all[s.workers[k]].plan.key == k && k in DoRemove(s, id).workers
    ensures var s' := DoRemove(s, id); s'.workers[k] < |s'.all| && Alive(s'.all[s'.workers[k]])
  {
  }

  lemma {:induction false} RemoveListsTheLiving(s: State, id: Id)
    requires ListsTheLiving(s) && Inv(s)
    ensures ListsTheLiving(DoRemove(s, id))
  {
    forall k | k in DoRemove(s, id).workers
      ensures var s' := DoRemove(s, id); s'.workers[k] < |s'.all| && Alive(s'.all[s'.workers[k]])
    {
      StaysListed(s, id, k);
    }
  }

  lemma {:induction false} StartListsTheLiving(s: State, order: seq<Key>)
    requires ListsTheLiving(s)
    ensures ListsTheLiving(DoStart(s, order))
  {
    if s.pc.Starting? && Lists(order, s.pc.desired) {
      var s' := DoStart(s, order);
      forall k | k in s'.workers
        ensures s'.workers[k] < |s'.all| && Alive(s'.all[s'.workers[k]])
      {
        if k in s.pc.desired {
          StartedMap(s, order, k);
        } else {
          StartedWorkers(s, order, s.workers[k]);
        }
      }
    }
  }

  lemma {:induction false} CallListsTheLiving(s: State, step: Step)
    requires ListsTheLiving(s)
    requires step.BeginReconcile? || step.Check? || step.BeginShutdown? || step.EndShutdown? || step.CancelParent?
    ensures ListsTheLiving(Do(s, step))
  {
  }

  lemma {:induction false} StepListsTheLiving(s: State, step: Step)
    requires ListsTheLiving(s) && Inv(s)
    ensures ListsTheLiving(Do(s, step))
  {
    if step.Start? {
      StartListsTheLiving(s, step.order);
    } else if step.Enter? {
      AdvanceListsTheLiving(s, step.id, Created, Running);
    } else if step.Return? {
      AdvanceListsTheLiving(s, step.id, Running, Returned);
    } else if step.Remove? {
      RemoveListsTheLiving(s, step.id);
    } else if step.Close? {
      AdvanceListsTheLiving(s, step.id, Removed, Done);
    } else {
      CallListsTheLiving(s, step);
    }
  }

  lemma {:induction false} EveryRunListsTheLiving(s: State, steps: seq<Step>)
    requires Fresh(s)
    ensures ListsTheLiving(Run(s, steps))
    decreases |steps|
  {
    if |steps| > 0 {
      var k := |steps| - 1;
      EveryRunListsTheLiving(s, steps[..k]);
      RunBodiesNeverOverlap(s, steps[..k]);
      StepListsTheLiving(Run(s, steps[..k]), steps[k]);
    }
  }

  /** In every reachable state: when all workers of a plan's key have ended and cleaned up, a Reconcile
      with that plan is going to start it. */
  lemma {:induction false} EndedIsWantedAgain(s: State, steps: seq<Step>, plans: seq<Plan>, i: nat)
    requires Fresh(s) && Run(s, steps).pc.Idle? && NoDuplicates(plans) && i < |plans|
    requires forall w :: w in Run(s, steps).all && w.plan.key == plans[i].key ==> !Alive(w)
    ensures var pc := Do(Run(s, steps), BeginReconcile(plans)).pc;
            pc.Stopping? && plans[i].key in pc.desired && pc.desired[plans[i].key] == plans[i]
  {
    var now, k := Run(s, steps), plans[i].key;
    EveryRunListsTheLiving(s, steps);
    RunBodiesNeverOverlap(s, steps);
    assert Wellformed(now);
    assert forall j :: j in now.workers ==> now.all[now.workers[j]] in now.all;
    assert k !in now.workers;
    BeginWantsTheRest(now, plans, i);
  }

  // ---- Every call can come to its end ----

  /** The same call goes on with the same workers. */
  predicate SameBut(s: State, s': State) {
    && s'.pc == s.pc && s'.cancelled == s.cancelled && |s'.all| == |s.all|
    && forall i :: 0 <= i < |s.all| && s.all[i].phase.Done? ==> s'.all[i].phase.Done?
  }

  /** Steps of workers only. */
  predicate OfWorkers(steps: seq<Step>) {
    forall i :: 0 <= i < |steps| ==> steps[i].Enter? || steps[i].Return? || steps[i].Remove? || steps[i].Close?
  }

  lemma {:induction false} RunOne(s: State, steps: seq<Step>, step: Step)
    ensures Run(s, steps + [step]) == Do(Run(s, steps), step)
  {
    assert (steps + [step])[..|steps|] == steps;
  }

  lemma {:induction false} RunConcat(s: State, first: seq<Step>, second: seq<Step>)
    ensures Run(s, first + second) == Run(Run(s, first), second)
    decreases |second|
  {
    if |second| == 0 {
      assert first + second == first;
    } else {
      var k := |second| - 1;
      RunConcat(s, first, second[..k]);
      RunOne(s, first + second[..k], second[k]);
      assert first + second == first + second[..k] + [second[k]];
    }
  }

  lemma {:induction false} RunTwo(s: State, first: Step, second: Step)
    ensures Run(s, [first, second]) == Do(Do(s, first), second)
  {
    assert [first, second][..1] == [first];
    assert [first][..0] == [];
    assert Run(s, [first]) == Do(Run(s, []), first);
  }

  lemma {:induction false} HalfOver(s: State, id: Id)
    requires id < |s.all|
    ensures var n := Do(Do(s, Enter(id)), Return(id));
            SameBut(s, n) && (n.all[id].phase.Returned? || n.all[id].phase.Removed? || n.all[id].phase.Done?)
  {
  }

  lemma {:induction false} RestOver(s: State, id: Id)
    requires id < |s.all| && (s.all[id].phase.Returned? || s.all[id].phase.Removed? || s.all[id].phase.Done?)
    ensures var n := Do(Do(s, Remove(id)), Close(id)); SameBut(s, n) && n.all[id].phase.Done?
  {
  }

  /** Whatever a worker is at, four steps of its own bring it to its end. */
  lemma {:induction false} WorkerEnds(s: State, id: Id) returns (steps: seq<Step>)
    requires id < |s.all|
    ensures OfWorkers(steps) && SameBut(s, Run(s, steps)) && Run(s, steps).all[id].phase.Done?
  {
    var one, two := [Enter(id), Return(id)], [Remove(id), Close(id)];
    RunTwo(s, Enter(id), Return(id));
    HalfOver(s, id);
    var n := Run(s, one);
    RunTwo(n, Remove(id), Close(id));
    RestOver(n, id);
    RunConcat(s, one, two);
    steps := one + two;
  }

  lemma {:induction false} WorkersEnd(s: State, ids: set<Id>) returns (steps: seq<Step>)
    requires forall i :: i in ids ==> i < |s.all|
    ensures OfWorkers(steps) && SameBut(s, Run(s, steps)) && AllDone(Run(s, steps).all, ids)
    decreases |ids|
  {
    if id :| id in ids {
      var first := WorkerEnds(s, id);
      var n := Run(s, first);
      var second := WorkersEnd(n, ids - {id});
      RunConcat(s, first, second);
      steps := first + second;
    } else {
      steps := [];
    }
  }

  /** The keys of a map in some order. */
  lemma {:induction false} SomeOrder(desired: map<Key, Plan>) returns (order: seq<Key>)
    ensures Lists(order, desired)
    decreases |desired|
  {
    if k :| k in desired {
      var rest := desired - {k};
      assert rest.Keys == desired.Keys - {k};
      var before := SomeOrder(rest);
      order := before + [k];
    } else {
      order := [];
    }
  }

  /** From every reachable state in which Reconcile waits, its workers can end and it can return: without
      error unless the supervisor was cancelled. Shutdown, likewise. */
  lemma {:induction false} CallsCanReturn(s: State, steps: seq<Step>) returns (later: seq<Step>)
    requires Fresh(s) && (Run(s, steps).pc.Stopping? || Run(s, steps).pc.Closing?)
    ensures var now, n := Run(s, steps), Run(Run(s, steps), later);
            && n.pc.Idle? && SameCall(later) && CancelParent !in later
            && n.verdict == if now.pc.Closing? then Stopped
                            else if now.cancelled then Failed else Reconciled(now.pc.goal)
  {
    RunBodiesNeverOverlap(s, steps);
    var now := Run(s, steps);
    assert now.pc.waiting == Waiting(now.pc);
    var first := WorkersEnd(now, now.pc.waiting);
    var second := LastSteps(Run(now, first));
    RunConcat(now, first, second);
    later := first + second;
  }

  /** When all that was waited for is done, two steps are left. */
  lemma {:induction false} LastSteps(s: State) returns (steps: seq<Step>)
    requires s.pc.Stopping? || s.pc.Closing?
    requires AllDone(s.all, s.pc.waiting)
    ensures var n := Run(s, steps);
            && n.pc.Idle? && SameCall(steps) && CancelParent !in steps
            && n.verdict == if s.pc.Closing? then Stopped else if s.cancelled then Failed else Reconciled(s.pc.goal)
  {
    if s.pc.Stopping? {
      var order := SomeOrder(s.pc.desired);
      RunTwo(s, Check, Start(order));
      steps := [Check, Start(order)];
    } else {
      RunTwo(s, EndShutdown, Check);
      steps := [EndShutdown, Check];
    }
  }

  /** Unless Reconcile is already starting workers, a cancelled supervisor never starts another. */
  lemma {:induction false} NothingStartsOnceCancelled(s: State, steps: seq<Step>)
    requires !s.pc.Starting?
    ensures var n := Run(Do(s, CancelParent), steps); n.cancelled && !n.pc.Starting? && |n.all| == |s.all|
    decreases |steps|
  {
    if |steps| > 0 {
      var k := |steps| - 1;
      NothingStartsOnceCancelled(s, steps[..k]);
      StartsNothingWhenCancelled(Run(Do(s, CancelParent), steps[..k]), steps[k]);
    }
  }

  lemma {:induction false} StartsNothingWhenCancelled(s: State, step: Step)
    requires s.cancelled && !s.pc.Starting?
    ensures var n := Do(s, step); n.cancelled && !n.pc.Starting? && |n.all| == |s.all|
  {
  }
}
