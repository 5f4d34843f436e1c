/** The objects of go/internal/wgnet/state.go: a dataplane whose calls may fail, and the reconciler
    that drives it. Each method performs a run of the state machine in Reconcile. */
module Reconciler {
  import opened Snapshot
  import opened Reconcile

  /** Dataplane, with failures left open: a call that reports an error did or did not take effect. */
  class Dataplane {
    var peers: seq<Peer>
    var policy: set<Prefix>
    var mail: set<Prefix>
    var routed: set<Prefix>
    ghost var made: set<Made>

    /** A device in any state: the kernel may have kept routes. */
    constructor (device: Device)
      ensures View() == device
    {
      peers, policy, mail, routed := device.peers, device.policy, device.mail, device.routed;
      made := device.made;
    }

    ghost function View(): Device
      reads this
    {
      Device(peers, policy, mail, routed, made)
    }

    method ApplyRoutedPolicy(active: set<Prefix>, smtp: set<Prefix>) returns (ok: bool, ghost o: Outcome)
      modifies this
      ensures ok == o.Done? && View() == SetPolicy(old(View()), active, smtp, o)
    {
      var takes: bool := *;
      ok := *;
      if ok || takes {
        policy, mail := active, smtp;
      }
      made := made + {MadePolicy(active, smtp, ok)};
      o := if ok then Done else Failed(takes);
    }

    method ReplacePeers(wanted: seq<Peer>) returns (ok: bool, ghost o: Outcome)
      modifies this
      ensures ok == o.Done? && View() == SetPeers(old(View()), wanted, o, peers)
    {
      ok := *;
      if ok {
        peers := wanted;
      } else {
        peers := *;
      }
      made := made + {MadePeers(wanted, ok)};
      o := if ok then Done else Failed(true);
    }

    method ActivateRoute(p: Prefix) returns (ok: bool, ghost o: Outcome)
      modifies this
      ensures ok == o.Done? && View() == Route(old(View()), p, true, o)
    {
      var takes: bool := *;
      ok := *;
      if ok || takes {
        routed := routed + {p};
      }
      made := made + {MadeRoute(p, true, ok)};
      o := if ok then Done else Failed(takes);
    }

    method BlackholeRoute(p: Prefix) returns (ok: bool, ghost o: Outcome)
      modifies this
      ensures ok == o.Done? && View() == Route(old(View()), p, false, o)
    {
      var takes: bool := *;
      ok := *;
      if ok || takes {
        routed := routed - {p};
      }
      made := made + {MadeRoute(p, false, ok)};
      o := if ok then Done else Failed(takes);
    }
  }

  class Reconciler {
    const dataplane: Dataplane
    const validKey: string -> bool
    const validPrefix: string -> bool
    var managedPrefixes: set<Prefix>
    ghost var verdict: Verdict
    ghost const inherited: set<Prefix>

    constructor (dataplane: Dataplane, validKey: string -> bool, validPrefix: string -> bool)
      requires dataplane.made == {}
      ensures this.dataplane == dataplane && managedPrefixes == {}
      ensures At(Resting) == StartOn(dataplane.View()) && Sound(Resting)
      ensures this.validKey == validKey && this.validPrefix == validPrefix
    {
      this.dataplane, this.validKey, this.validPrefix := dataplane, validKey, validPrefix;
      this.managedPrefixes, this.verdict, this.inherited := {}, Nothing, dataplane.routed;
    }

    ghost function At(pc: Pc): State
      reads this, dataplane
    {
      State(dataplane.View(), managedPrefixes, pc, verdict, inherited)
    }

    ghost predicate Sound(pc: Pc)
      reads this, dataplane
    {
      Inv(At(pc)) && Logged(At(pc)) && Revoking(At(pc))
    }

    /** `steps` is a run of the machine, of validated snapshots only, from `begin` to here. */
    ghost predicate Ran(begin: State, steps: seq<Step>, pc: Pc)
      reads this, dataplane
    {
      Run(begin, steps) == At(pc) && Sound(pc) && AllLawful(steps)
    }

    method Apply(s: DesiredState) returns (ok: bool, ghost steps: seq<Step>)
      requires Sound(Resting)
      modifies this, dataplane
      ensures Ran(old(At(Resting)), steps, Resting)
      ensures ok ==> Valid(s, validKey, validPrefix) && Matches(dataplane.View(), s, inherited)
      ensures ok ==> managedPrefixes == Elements(s.managed)
      ensures !Valid(s, validKey, validPrefix) ==>
              !ok && dataplane.View() == old(dataplane.View()).(made := {}) && managedPrefixes == old(managedPrefixes)
      ensures Valid(s, validKey, validPrefix) && AllDone(dataplane.made) ==> ok
    {
      ghost var begin := At(Resting);
      var valid := Validate(s, validKey, validPrefix);
      steps := Begin(begin, BeginApply(s, valid));
      dataplane.made := {};
      if !valid {
        verdict := ApplyError;
        return false, steps;
      }
      managedPrefixes := managedPrefixes + Elements(s.managed);
      verdict := Nothing;
      ghost var was := dataplane.routed;
      ok, steps := BlackholeRevoked(begin, steps, s, was);
      if ok {
        ok, steps := Install(begin, steps, s, was);
      }
    }

    /** The first loop of Apply, then the policy. */
    method BlackholeRevoked(ghost begin: State, ghost steps0: seq<Step>, s: DesiredState, ghost was: set<Prefix>)
      returns (ok: bool, ghost steps: seq<Step>)
      requires Ran(begin, steps0, Blackholing(s, managedPrefixes - Owned(s), was)) && verdict == Nothing
      modifies `verdict, dataplane
      ensures ok ==> Ran(begin, steps, Replacing(s, was)) && verdict == Nothing
      ensures !ok ==> Ran(begin, steps, Resting) && verdict == ApplyError && !AllDone(dataplane.made)
    {
      ok, steps := BlackholeAll(begin, steps0, s, was);
      if !ok {
        return;
      }
      ghost var o: Outcome;
      ghost var before := At(Blackholing(s, {}, was));
      ok, o := dataplane.ApplyRoutedPolicy(Owned(s), Elements(s.smtp));
      steps := Extend(begin, before, steps, "", o, []);
      if !ok {
        verdict := ApplyError;
      }
    }

    /** The loop over the prefixes that the snapshot does not own. */
    method BlackholeAll(ghost begin: State, ghost steps0: seq<Step>, s: DesiredState, ghost was: set<Prefix>)
      returns (ok: bool, ghost steps: seq<Step>)
      requires Ran(begin, steps0, Blackholing(s, managedPrefixes - Owned(s), was)) && verdict == Nothing
      modifies `verdict, dataplane
      ensures ok ==> Ran(begin, steps, Blackholing(s, {}, was)) && verdict == Nothing
      ensures !ok ==> Ran(begin, steps, Resting) && verdict == ApplyError && !AllDone(dataplane.made)
    {
      ghost var o: Outcome;
      var todo := managedPrefixes - Owned(s);
      steps := steps0;
      while todo != {}
        invariant Ran(begin, steps, Blackholing(s, todo, was)) && verdict == Nothing
        decreases |todo|
      {
        var p :| p in todo;
        ghost var before := At(Blackholing(s, todo, was));
        ok, o := dataplane.BlackholeRoute(p);
        steps := Extend(begin, before, steps, p, o, []);
        if !ok {
          verdict := ApplyError;
          return;
        }
        todo := todo - {p};
      }
      ok := true;
    }

    method Install(ghost begin: State, ghost steps0: seq<Step>, s: DesiredState, ghost was: set<Prefix>)
      returns (ok: bool, ghost steps: seq<Step>)
      requires Ran(begin, steps0, Replacing(s, was)) && verdict == Nothing
      modifies this, dataplane
      ensures Ran(begin, steps, Resting)
      ensures ok ==> verdict == Applied(s)
      ensures !ok ==> (verdict.ApplyError? || verdict.ApplyClosed?) && !AllDone(dataplane.made)
    {
      ghost var o: Outcome;
      ghost var before := At(Replacing(s, was));
      ok, o := dataplane.ReplacePeers(s.peers);
      steps := Extend(begin, before, steps0, "", o, dataplane.peers);
      if !ok {
        var _, closing := CloseAll(begin, steps, true);
        return false, closing;
      }
      if Owned(s) == {} {
        managedPrefixes, verdict := Elements(s.managed), Applied(s);
        return true, steps;
      }
      ok, steps := ActivateAll(begin, steps, s);
    }

    /** The last loop of Apply. */
    method ActivateAll(ghost begin: State, ghost steps0: seq<Step>, s: DesiredState)
      returns (ok: bool, ghost steps: seq<Step>)
      requires Owned(s) != {} && Ran(begin, steps0, Activating(s, Owned(s)))
      modifies this, dataplane
      ensures Ran(begin, steps, Resting)
      ensures ok ==> verdict == Applied(s)
      ensures !ok ==> verdict == ApplyError && !AllDone(dataplane.made)
    {
      ghost var o: Outcome;
      var todo := Owned(s);
      steps := steps0;
      while true
        invariant todo != {} && Ran(begin, steps, Activating(s, todo))
        decreases |todo|
      {
        var p :| p in todo;
        ghost var before := At(Activating(s, todo));
        ok, o := dataplane.ActivateRoute(p);
        steps := Extend(begin, before, steps, p, o, []);
        if !ok {
          verdict := ApplyError;
          return;
        }
        if todo == {p} {
          managedPrefixes, verdict := Elements(s.managed), Applied(s);
          return;
        }
        todo := todo - {p};
      }
    }

    /** FailClosed removes every peer and blackholes everything managed; nil means it all took. */
    method FailClosed() returns (ok: bool, ghost steps: seq<Step>)
      requires Sound(Resting)
      modifies this, dataplane
      ensures Ran(old(At(Resting)), steps, Resting)
      ensures managedPrefixes == old(managedPrefixes)
      ensures ok ==> ShutDown(dataplane.View(), managedPrefixes, inherited)
      ensures TriedAll(At(Resting)) && Effective(dataplane.View())
      ensures AllDone(dataplane.made) ==> ok
    {
      ghost var begin := At(Resting);
      steps := Begin(begin, BeginClose);
      dataplane.made := {};
      verdict := Nothing;
      ok, steps := CloseAll(begin, steps, false);
    }

    /** failClosed: every layer is attempted even when an earlier one failed. */
    method CloseAll(ghost begin: State, ghost steps0: seq<Step>, ghost inApply: bool)
      returns (ok: bool, ghost steps: seq<Step>)
      requires Ran(begin, steps0, ClosingPeers(inApply))
      modifies `verdict, dataplane
      ensures Ran(begin, steps, Resting) && TriedAll(At(Resting))
      ensures verdict == CloseVerdict(ok, inApply) && old(dataplane.made) <= dataplane.made
      ensures !ok ==> !AllDone(dataplane.made)
    {
      ghost var o: Outcome;
      ghost var before := At(ClosingPeers(inApply));
      ok, o := dataplane.ReplacePeers([]);
      steps := Extend(begin, before, steps0, "", o, dataplane.peers);
      var clean: bool;
      before := At(ClosingPolicy(ok, inApply));
      clean, o := dataplane.ApplyRoutedPolicy({}, {});
      steps := Extend(begin, before, steps, "", o, []);
      ok := ok && clean;
      if managedPrefixes == {} {
        verdict := CloseVerdict(ok, inApply);
      } else {
        ok, steps := CloseRoutes(begin, steps, ok, inApply);
      }
    }

    /** The loop over everything managed, which goes on when a prefix cannot be blackholed. */
    method CloseRoutes(ghost begin: State, ghost steps0: seq<Step>, cleanSoFar: bool, ghost inApply: bool)
      returns (ok: bool, ghost steps: seq<Step>)
      requires managedPrefixes != {} && Ran(begin, steps0, ClosingRoutes(managedPrefixes, cleanSoFar, inApply))
      requires !cleanSoFar ==> !AllDone(dataplane.made)
      modifies `verdict, dataplane
      ensures Ran(begin, steps, Resting) && TriedAll(At(Resting))
      ensures verdict == CloseVerdict(ok, inApply) && old(dataplane.made) <= dataplane.made
      ensures !ok ==> !AllDone(dataplane.made)
    {
      var todo := managedPrefixes;
      ok, steps := cleanSoFar, steps0;
      while true
        invariant todo != {} && Ran(begin, steps, ClosingRoutes(todo, ok, inApply))
        invariant old(dataplane.made) <= dataplane.made && (!ok ==> !AllDone(dataplane.made))
        decreases |todo|
      {
        var p :| p in todo;
        ok, steps := CloseRoute(begin, steps, p, todo, ok, inApply);
        if todo == {p} {
          return;
        }
        todo := todo - {p};
      }
    }

    /** One prefix of that loop. */
    method CloseRoute(
      ghost begin: State, ghost steps0: seq<Step>, p: Prefix, ghost todo: set<Prefix>, clean: bool, ghost inApply: bool)
      returns (ok: bool, ghost steps: seq<Step>)
      requires p in todo && Ran(begin, steps0, ClosingRoutes(todo, clean, inApply))
      requires !clean ==> !AllDone(dataplane.made)
      modifies `verdict, dataplane
      ensures todo == {p} ==>
                Ran(begin, steps, Resting) && TriedAll(At(Resting)) && verdict == CloseVerdict(ok, inApply)
      ensures todo != {p} ==> Ran(begin, steps, ClosingRoutes(todo - {p}, ok, inApply))
      ensures old(dataplane.made) <= dataplane.made && (!ok ==> !AllDone(dataplane.made))
    {
      ghost var o: Outcome;
      ghost var before := At(ClosingRoutes(todo, clean, inApply));
      ok, o := dataplane.BlackholeRoute(p);
      steps := Extend(begin, before, steps0, p, o, []);
      ok := clean && ok;
      if todo == {p} {
        verdict := CloseVerdict(ok, inApply);
      }
    }
  }

  lemma {:induction false} Begin(begin: State, step: Step) returns (steps: seq<Step>)
    requires Inv(begin) && Logged(begin) && Revoking(begin) && Lawful(step)
    ensures Run(begin, steps) == Do(begin, step)
    ensures Inv(Do(begin, step)) && Logged(Do(begin, step)) && Revoking(Do(begin, step))
    ensures AllLawful(steps)
  {
    steps := [] + [step];
    RunSnoc(begin, [], step);
    StepKeeps(begin, step);
    StepLogs(begin, step);
  }

  /** One more dataplane call at the end of a run. */
  lemma {:induction false} Extend(begin: State, before: State, steps: seq<Step>, p: Prefix, o: Outcome, left: seq<Peer>)
    returns (steps': seq<Step>)
    requires Run(begin, steps) == before && Inv(before) && Logged(before) && Revoking(before)
    requires AllLawful(steps)
    ensures var st := Do(before, Call(p, o, left)); Run(begin, steps') == st && Inv(st) && Logged(st) && Revoking(st)
    ensures AllLawful(steps')
  {
    steps' := steps + [Call(p, o, left)];
    RunSnoc(begin, steps, Call(p, o, left));
    CallKeeps(before, p, o, left);
    CallLogs(before, p, o, left);
  }
}
