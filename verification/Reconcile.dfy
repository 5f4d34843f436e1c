/** Applying snapshots to a faulty dataplane (go/internal/wgnet/state.go), as a state machine with
    one step per dataplane call.

    A failed call may or may not have taken effect, and a failed peer replacement may leave any
    peers behind. Prefixes are visited in any order; the source visits them sorted. */
module Reconcile {
  import opened Snapshot

  /** A dataplane call that was made, and whether it reported success. */
  datatype Made =
    | MadePeers(peers: seq<Peer>, done: bool)
    | MadePolicy(active: set<Prefix>, mail: set<Prefix>, done: bool)
    | MadeRoute(prefix: Prefix, up: bool, done: bool)

  /** The dataplane: its peers, its forwarding policy, the prefixes routed into the device, and the
      calls made since the running call of Apply or FailClosed began. */
  datatype Device = Device(
    peers: seq<Peer>, policy: set<Prefix>, mail: set<Prefix>, routed: set<Prefix>, made: set<Made>)

  datatype Outcome = Done | Failed(tookEffect: bool)

  /** Where a running call of Apply or FailClosed is: which dataplane call comes next. `was` is
      the set of routes when Apply began; `clean` says that no call of this closing failed, and
      `inApply` that the closing follows a failed peer replacement. */
  datatype Pc =
    | Resting
    | Blackholing(s: DesiredState, todo: set<Prefix>, was: set<Prefix>)
    | Replacing(s: DesiredState, was: set<Prefix>)
    | Activating(s: DesiredState, todo: set<Prefix>)
    | ClosingPeers(inApply: bool)
    | ClosingPolicy(clean: bool, inApply: bool)
    | ClosingRoutes(todo: set<Prefix>, clean: bool, inApply: bool)

  /** How the last call of Apply or FailClosed returned; `ApplyClosed` is an error of Apply after which
      it closed the dataplane. */
  datatype Verdict = Nothing | Applied(s: DesiredState) | ApplyError | ApplyClosed | Closed | CloseError

  /** `managed` is Reconciler.managedPrefixes as a set; `inherited` are the prefixes the device routed
      before the first call, when a relay is restarted over a kernel that kept its routes. */
  datatype State = State(dev: Device, managed: set<Prefix>, pc: Pc, verdict: Verdict, inherited: set<Prefix>)

  datatype Step =
    | BeginApply(s: DesiredState, valid: bool)
    | BeginClose
    | Call(prefix: Prefix, outcome: Outcome, left: seq<Peer>)

  /** A new reconciler over any device. */
  function StartOn(dev: Device): State {
    State(dev.(made := {}), {}, Resting, Nothing, dev.routed)
  }

  // ---- The dataplane ----

  function Route(dev: Device, p: Prefix, active: bool, o: Outcome): Device {
    var made := dev.made + {MadeRoute(p, active, o.Done?)};
    if o.Failed? && !o.tookEffect then dev.(made := made)
    else dev.(routed := if active then dev.routed + {p} else dev.routed - {p}, made := made)
  }

  function SetPolicy(dev: Device, active: set<Prefix>, mail: set<Prefix>, o: Outcome): Device {
    var made := dev.made + {MadePolicy(active, mail, o.Done?)};
    if o.Failed? && !o.tookEffect then dev.(made := made) else dev.(policy := active, mail := mail, made := made)
  }

  function SetPeers(dev: Device, peers: seq<Peer>, o: Outcome, left: seq<Peer>): Device {
    dev.(peers := if o.Done? then peers else left, made := dev.made + {MadePeers(peers, o.Done?)})
  }

  // ---- Apply and FailClosed, call by call ----

  function Finish(st: State, dev: Device, verdict: Verdict): State {
    st.(dev := dev, pc := Resting, verdict := verdict)
  }

  function FinishApply(st: State, dev: Device, s: DesiredState): State {
    st.(dev := dev, managed := Elements(s.managed), pc := Resting, verdict := Applied(s))
  }

  function CallBlackhole(
    st: State, s: DesiredState, todo: set<Prefix>, was: set<Prefix>, p: Prefix, o: Outcome): State {
    if todo == {} then
      var dev := SetPolicy(st.dev, Owned(s), Elements(s.smtp), o);
      if o.Done? then st.(dev := dev, pc := Replacing(s, was)) else Finish(st, dev, ApplyError)
    else if p !in todo then st
    else
      var dev := Route(st.dev, p, false, o);
      if o.Done? then st.(dev := dev, pc := Blackholing(s, todo - {p}, was)) else Finish(st, dev, ApplyError)
  }

  function CallReplace(st: State, s: DesiredState, o: Outcome, left: seq<Peer>): State {
    var dev := SetPeers(st.dev, s.peers, o, left);
    if o.Failed? then st.(dev := dev, pc := ClosingPeers(true))
    else if Owned(s) == {} then FinishApply(st, dev, s)
    else st.(dev := dev, pc := Activating(s, Owned(s)))
  }

  function CallActivate(st: State, s: DesiredState, todo: set<Prefix>, p: Prefix, o: Outcome): State {
    if p !in todo then st
    else
      var dev := Route(st.dev, p, true, o);
      if o.Failed? then Finish(st, dev, ApplyError)
      else if todo == {p} then FinishApply(st, dev, s)
      else st.(dev := dev, pc := Activating(s, todo - {p}))
  }

  function CloseVerdict(clean: bool, inApply: bool): Verdict {
    if inApply then ApplyClosed else if clean then Closed else CloseError
  }

  function CallCloseRoute(st: State, todo: set<Prefix>, clean: bool, inApply: bool, p: Prefix, o: Outcome): State {
    if p !in todo then st
    else
      var dev, clean' := Route(st.dev, p, false, o), clean && o.Done?;
      if todo == {p} then Finish(st, dev, CloseVerdict(clean', inApply))
      else st.(dev := dev, pc := ClosingRoutes(todo - {p}, clean', inApply))
  }

  function CallClosePolicy(st: State, clean: bool, inApply: bool, o: Outcome): State {
    var dev, clean' := SetPolicy(st.dev, {}, {}, o), clean && o.Done?;
    if st.managed == {} then Finish(st, dev, CloseVerdict(clean', inApply))
    else st.(dev := dev, pc := ClosingRoutes(st.managed, clean', inApply))
  }

  function Do(st: State, step: Step): State {
    match step
    case BeginApply(s, valid) =>
      if !st.pc.Resting? then st
      else if !valid then st.(dev := st.dev.(made := {}), verdict := ApplyError)
      else
        var all := st.managed + Elements(s.managed);
        st.(dev := st.dev.(made := {}), managed := all,
            pc := Blackholing(s, all - Owned(s), st.dev.routed), verdict := Nothing)
    case BeginClose =>
      if st.pc.Resting? then st.(dev := st.dev.(made := {}), pc := ClosingPeers(false), verdict := Nothing) else st
    case Call(p, o, left) =>
      match st.pc
      case Resting => st
      case Blackholing(s, todo, was) => CallBlackhole(st, s, todo, was, p, o)
      case Replacing(s, was) => CallReplace(st, s, o, left)
      case Activating(s, todo) => CallActivate(st, s, todo, p, o)
      case ClosingPeers(inApply) =>
        st.(dev := SetPeers(st.dev, [], o, left), pc := ClosingPolicy(o.Done?, inApply))
      case ClosingPolicy(clean, inApply) => CallClosePolicy(st, clean, inApply, o)
      case ClosingRoutes(todo, clean, inApply) => CallCloseRoute(st, todo, clean, inApply, p, o)
  }

  function Run(st: State, steps: seq<Step>): State
    decreases |steps|
  {
    if |steps| == 0 then st else Do(Run(st, steps[..|steps| - 1]), steps[|steps| - 1])
  }

  // ---- What holds in every reachable state ----

  /** The dataplane is what the snapshot asks for; only inherited prefixes that the snapshot does not
      manage may still be routed besides. */
  predicate Matches(dev: Device, s: DesiredState, inherited: set<Prefix>) {
    && dev.peers == s.peers && dev.policy == Owned(s) && dev.mail == Elements(s.smtp)
    && Owned(s) <= dev.routed <= Owned(s) + (inherited - Elements(s.managed))
  }

  /** No peers, an empty policy and no route but inherited ones that were not managed. */
  predicate ShutDown(dev: Device, managed: set<Prefix>, inherited: set<Prefix>) {
    |dev.peers| == 0 && dev.policy == {} && dev.mail == {} && dev.routed <= inherited - managed
  }

  /** Inherited prefixes that no call has been told about. */
  function Foreign(st: State): set<Prefix> {
    st.inherited - st.managed
  }

  /** Steps that begin with a validated snapshot own only managed prefixes. */
  predicate Lawful(step: Step) {
    step.BeginApply? && step.valid ==> Owned(step.s) <= Elements(step.s.managed)
  }

  predicate PcOk(st: State) {
    match st.pc
    case Resting => true
    case Blackholing(s, todo, was) =>
      // Only prefixes still to be blackholed are routed without being owned.
      && Owned(s) <= Elements(s.managed) <= st.managed
      && st.dev.routed <= Owned(s) + todo + Foreign(st) && st.dev.routed <= was
    case Replacing(s, was) =>
      // Revoked prefixes are blackholed before the peers change; nothing new is routed yet.
      && Owned(s) <= Elements(s.managed) <= st.managed
      && st.dev.routed <= Owned(s) + Foreign(st) && st.dev.routed <= was
      && st.dev.policy == Owned(s) && st.dev.mail == Elements(s.smtp)
    case Activating(s, todo) =>
      // The new peers are in place before a route is added.
      && Owned(s) <= Elements(s.managed) <= st.managed && todo <= Owned(s)
      && st.dev.peers == s.peers && st.dev.policy == Owned(s) && st.dev.mail == Elements(s.smtp)
      && Owned(s) - todo <= st.dev.routed <= Owned(s) + Foreign(st)
    case ClosingPeers(_) => true
    case ClosingPolicy(clean, _) => clean ==> |st.dev.peers| == 0
    case ClosingRoutes(todo, clean, _) =>
      clean ==>
        |st.dev.peers| == 0 && st.dev.policy == {} && st.dev.mail == {} && st.dev.routed <= todo + Foreign(st)
  }

  predicate VerdictOk(st: State) {
    match st.verdict
    case Applied(s) =>
      && st.pc.Resting? && Matches(st.dev, s, st.inherited)
      && st.managed == Elements(s.managed) && Owned(s) <= Elements(s.managed)
    case Closed => st.pc.Resting? && ShutDown(st.dev, st.managed, st.inherited)
    case _ => true
  }

  /** Every routed prefix is managed or inherited, whatever calls failed. */
  predicate Inv(st: State) {
    st.dev.routed <= st.managed + st.inherited && PcOk(st) && (st.pc.Resting? ==> VerdictOk(st))
  }

  lemma {:induction false} CallKeeps(st: State, p: Prefix, o: Outcome, left: seq<Peer>)
    requires Inv(st)
    ensures Inv(Do(st, Call(p, o, left)))
  {
    match st.pc
    case Resting =>
    case Blackholing(s, todo, was) => BlackholeKeeps(st, s, todo, was, p, o);
    case Replacing(s, was) =>
    case Activating(s, todo) => ActivateKeeps(st, s, todo, p, o);
    case ClosingPeers(inApply) =>
    case ClosingPolicy(clean, inApply) =>
    case ClosingRoutes(todo, clean, inApply) => CloseRouteKeeps(st, todo, clean, inApply, p, o);
  }

  lemma {:induction false} BlackholeKeeps(
    st: State, s: DesiredState, todo: set<Prefix>, was: set<Prefix>, p: Prefix, o: Outcome)
    requires Inv(st) && st.pc == Blackholing(s, todo, was)
    ensures Inv(CallBlackhole(st, s, todo, was, p, o))
  {
    if todo != {} && p in todo && o.Done? {
      assert st.dev.routed - {p} <= Owned(s) + (todo - {p}) + Foreign(st);
    }
  }

  lemma {:induction false} ActivateKeeps(st: State, s: DesiredState, todo: set<Prefix>, p: Prefix, o: Outcome)
    requires Inv(st) && st.pc == Activating(s, todo)
    ensures Inv(CallActivate(st, s, todo, p, o))
  {
    if p in todo && o.Done? {
      var routed := st.dev.routed + {p};
      assert Owned(s) - (todo - {p}) <= routed <= Owned(s) + Foreign(st);
      if todo == {p} {
        assert Owned(s) - {} == Owned(s);
      }
    }
  }

  lemma {:induction false} CloseRouteKeeps(
    st: State, todo: set<Prefix>, clean: bool, inApply: bool, p: Prefix, o: Outcome)
    requires Inv(st) && st.pc == ClosingRoutes(todo, clean, inApply)
    ensures Inv(CallCloseRoute(st, todo, clean, inApply, p, o))
  {
    if p in todo && clean && o.Done? {
      assert st.dev.routed - {p} <= (todo - {p}) + Foreign(st);
    }
  }

  lemma {:induction false} StepKeeps(st: State, step: Step)
    requires Inv(st) && Lawful(step)
    ensures Inv(Do(st, step))
  {
    match step
    case BeginApply(s, valid) =>
      if st.pc.Resting? && valid {
        var all := st.managed + Elements(s.managed);
        assert st.dev.routed <= Owned(s) + (all - Owned(s)) + (st.inherited - all);
      }
    case BeginClose =>
    case Call(p, o, left) => CallKeeps(st, p, o, left);
  }

  predicate AllLawful(steps: seq<Step>) {
    forall i :: 0 <= i < |steps| ==> Lawful(steps[i])
  }

  /** Over any device, in every run of Apply and FailClosed, at every dataplane call and whatever
      fails, each prefix whose route is active is in managedPrefixes or was routed from the start. */
  lemma {:induction false} EveryRunCovered(dev: Device, steps: seq<Step>)
    requires AllLawful(steps)
    ensures Inv(Run(StartOn(dev), steps)) && Run(StartOn(dev), steps).inherited == dev.routed
    decreases |steps|
  {
    if |steps| > 0 {
      var before := steps[..|steps| - 1];
      EveryRunCovered(dev, before);
      StepKeeps(Run(StartOn(dev), before), steps[|steps| - 1]);
      InheritedFixed(Run(StartOn(dev), before), steps[|steps| - 1]);
    }
  }

  lemma {:induction false} InheritedFixed(st: State, step: Step)
    ensures Do(st, step).inherited == st.inherited
  {
  }

  /** A FailClosed that returns nil leaves no peers, an empty policy and no active route of any managed
      prefix, even after partly applied snapshots; over a device without routes, no route at all. */
  lemma {:induction false} FailClosedShutsDown(dev: Device, steps: seq<Step>)
    requires AllLawful(steps)
    requires Run(StartOn(dev), steps).pc.Resting? && Run(StartOn(dev), steps).verdict == Closed
    ensures var st := Run(StartOn(dev), steps);
            && ShutDown(st.dev, st.managed, dev.routed) && st.dev.routed !! st.managed
            && (dev.routed == {} ==> st.dev.routed == {})
  {
    EveryRunCovered(dev, steps);
  }

  /** An Apply that returns nil makes the dataplane what the snapshot asks for, whatever failed before:
      among the managed prefixes exactly the owned ones are routed; over a device without routes, none
      besides. */
  lemma {:induction false} AppliedMatchesSnapshot(dev: Device, steps: seq<Step>)
    requires AllLawful(steps)
    requires Run(StartOn(dev), steps).pc.Resting? && Run(StartOn(dev), steps).verdict.Applied?
    ensures var st := Run(StartOn(dev), steps);
            var s := st.verdict.s;
            && Matches(st.dev, s, dev.routed) && st.managed == Elements(s.managed)
            && st.dev.routed * Elements(s.managed) == Owned(s)
            && (dev.routed == {} ==> st.dev.routed == Owned(s))
  {
    EveryRunCovered(dev, steps);
  }

  /** Revocation-safe order: when the new peer set is installed, every managed prefix the snapshot does
      not own is already blackholed and no prefix has been routed that was not routed before. */
  lemma {:induction false} RevokedBeforePeersChange(dev: Device, steps: seq<Step>)
    requires AllLawful(steps)
    requires Run(StartOn(dev), steps).pc.Replacing?
    ensures var st := Run(StartOn(dev), steps);
            st.dev.routed * st.managed <= Owned(st.pc.s) && st.dev.routed <= st.pc.was
  {
    EveryRunCovered(dev, steps);
  }

  /** A route is added only while the snapshot's own peers are installed, and only for a prefix
      one of them owns. */
  lemma {:induction false} RoutedOnlyAfterPeers(dev: Device, steps: seq<Step>, step: Step, p: Prefix)
    requires AllLawful(steps)
    requires p !in Run(StartOn(dev), steps).dev.routed && p in Do(Run(StartOn(dev), steps), step).dev.routed
    ensures var st := Run(StartOn(dev), steps);
            st.pc.Activating? && st.dev.peers == st.pc.s.peers && p in Owned(st.pc.s)
  {
    EveryRunCovered(dev, steps);
  }

  // ---- Every layer is attempted ----

  predicate TriedPolicy(made: set<Made>) {
    MadePolicy({}, {}, true) in made || MadePolicy({}, {}, false) in made
  }

  predicate TriedRoute(made: set<Made>, p: Prefix) {
    MadeRoute(p, false, true) in made || MadeRoute(p, false, false) in made
  }

  predicate AllDone(made: set<Made>) {
    forall m :: m in made ==> m.done
  }

  predicate PeersFailed(made: set<Made>) {
    exists m :: m in made && m.MadePeers? && !m.done
  }

  /** The policy was to be emptied and every managed prefix to be blackholed. */
  predicate TriedAll(st: State) {
    TriedPolicy(st.dev.made) && forall p :: p in st.managed ==> TriedRoute(st.dev.made, p)
  }

  /** Each call to close something that reported success has its effect, whatever the others did. */
  predicate Effective(dev: Device) {
    && (MadePolicy({}, {}, true) in dev.made ==> dev.policy == {} && dev.mail == {})
    && (forall p :: MadeRoute(p, false, true) in dev.made ==> p !in dev.routed)
    && (MadePeers([], true) in dev.made ==> |dev.peers| == 0)
  }

  /** Apply has neither replaced peers in vain nor blackholed a prefix it wants. */
  predicate Applying(dev: Device, s: DesiredState) {
    !PeersFailed(dev.made) && forall p :: p in Owned(s) ==> !TriedRoute(dev.made, p)
  }

  predicate NoPeersYet(made: set<Made>) {
    forall m :: m in made ==> !m.MadePeers?
  }

  /** The last call was FailClosed, or an Apply that failed to replace the peers. */
  predicate HasClosed(st: State) {
    st.verdict.Closed? || st.verdict.CloseError? || st.verdict.ApplyClosed? || PeersFailed(st.dev.made)
  }

  predicate Progress(st: State) {
    match st.pc
    case Resting => HasClosed(st) ==> TriedAll(st)
    case Blackholing(s, todo, _) => NoPeersYet(st.dev.made) && Applying(st.dev, s)
    case Replacing(s, _) => NoPeersYet(st.dev.made) && Applying(st.dev, s)
    case Activating(s, todo) => Applying(st.dev, s) && todo <= Owned(s)
    case ClosingPeers(_) => MadePeers([], true) !in st.dev.made
    case ClosingPolicy(_, _) => true
    case ClosingRoutes(todo, _, _) =>
      TriedPolicy(st.dev.made) && forall p :: p in st.managed ==> p in todo || TriedRoute(st.dev.made, p)
  }

  predicate Logged(st: State) {
    Effective(st.dev) && Progress(st)
  }

  lemma {:induction false} RouteEffective(dev: Device, p: Prefix, active: bool, o: Outcome)
    requires Effective(dev) && (active ==> !TriedRoute(dev.made, p))
    ensures Effective(Route(dev, p, active, o))
  {
  }

  lemma {:induction false} PolicyEffective(dev: Device, active: set<Prefix>, mail: set<Prefix>, o: Outcome)
    requires Effective(dev) && ((active == {} && mail == {}) || MadePolicy({}, {}, true) !in dev.made)
    ensures Effective(SetPolicy(dev, active, mail, o))
  {
  }

  lemma {:induction false} PeersEffective(dev: Device, peers: seq<Peer>, o: Outcome, left: seq<Peer>)
    requires Effective(dev) && MadePeers([], true) !in dev.made
    ensures Effective(SetPeers(dev, peers, o, left))
  {
  }

  lemma {:induction false} BlackholeLogs(
    st: State, s: DesiredState, todo: set<Prefix>, was: set<Prefix>, p: Prefix, o: Outcome)
    requires Logged(st) && st.pc == Blackholing(s, todo, was) && todo !! Owned(s)
    requires MadePolicy({}, {}, true) !in st.dev.made
    ensures Logged(CallBlackhole(st, s, todo, was, p, o))
  {
    RouteEffective(st.dev, p, false, o);
    PolicyEffective(st.dev, Owned(s), Elements(s.smtp), o);
  }

  lemma {:induction false} ReplaceLogs(st: State, s: DesiredState, was: set<Prefix>, o: Outcome, left: seq<Peer>)
    requires Logged(st) && st.pc == Replacing(s, was)
    ensures Logged(CallReplace(st, s, o, left))
  {
    PeersEffective(st.dev, s.peers, o, left);
  }

  lemma {:induction false} ActivateLogs(st: State, s: DesiredState, todo: set<Prefix>, p: Prefix, o: Outcome)
    requires Logged(st) && st.pc == Activating(s, todo)
    ensures Logged(CallActivate(st, s, todo, p, o))
  {
    if p in todo {
      RouteEffective(st.dev, p, true, o);
    }
  }

  lemma {:induction false} CloseRouteLogs(
    st: State, todo: set<Prefix>, clean: bool, inApply: bool, p: Prefix, o: Outcome)
    requires Logged(st) && st.pc == ClosingRoutes(todo, clean, inApply)
    ensures Logged(CallCloseRoute(st, todo, clean, inApply, p, o))
  {
    RouteEffective(st.dev, p, false, o);
  }

  lemma {:induction false} ClosePolicyLogs(st: State, clean: bool, inApply: bool, o: Outcome)
    requires Logged(st) && st.pc == ClosingPolicy(clean, inApply)
    ensures Logged(CallClosePolicy(st, clean, inApply, o))
  {
    PolicyEffective(st.dev, {}, {}, o);
  }

  /** While Apply blackholes, it has not set the policy yet, and it does not blackhole what it wants. */
  predicate Revoking(st: State) {
    st.pc.Blackholing? ==> st.pc.todo !! Owned(st.pc.s) && MadePolicy({}, {}, true) !in st.dev.made
  }

  lemma {:induction false} CallLogs(st: State, p: Prefix, o: Outcome, left: seq<Peer>)
    requires Logged(st) && Revoking(st)
    ensures Logged(Do(st, Call(p, o, left))) && Revoking(Do(st, Call(p, o, left)))
  {
    match st.pc
    case Resting =>
    case Blackholing(s, todo, was) => BlackholeLogs(st, s, todo, was, p, o);
    case Replacing(s, was) => ReplaceLogs(st, s, was, o, left);
    case Activating(s, todo) => ActivateLogs(st, s, todo, p, o);
    case ClosingPeers(inApply) => PeersEffective(st.dev, [], o, left);
    case ClosingPolicy(clean, inApply) => ClosePolicyLogs(st, clean, inApply, o);
    case ClosingRoutes(todo, clean, inApply) => CloseRouteLogs(st, todo, clean, inApply, p, o);
  }

  lemma {:induction false} StepLogs(st: State, step: Step)
    requires Logged(st) && Revoking(st)
    ensures Logged(Do(st, step)) && Revoking(Do(st, step))
  {
    if step.Call? {
      CallLogs(st, step.prefix, step.outcome, step.left);
    }
  }

  /** In every run, at every dataplane call: a call to close something that reported success has its
      effect whatever the others did; and when a FailClosed comes to rest, or an Apply that could not
      replace the peers, the policy was to be emptied and every managed prefix to be blackholed,
      whichever calls failed. */
  lemma {:induction false} EveryLayerIsAttempted(dev: Device, steps: seq<Step>)
    ensures var st := Run(StartOn(dev), steps);
            Logged(st) && Revoking(st) && (st.pc.Resting? && HasClosed(st) ==> TriedAll(st))
    decreases |steps|
  {
    if |steps| > 0 {
      EveryLayerIsAttempted(dev, steps[..|steps| - 1]);
      StepLogs(Run(StartOn(dev), steps[..|steps| - 1]), steps[|steps| - 1]);
    }
  }

  lemma {:induction false} RunSnoc(st: State, steps: seq<Step>, step: Step)
    ensures Run(st, steps + [step]) == Do(Run(st, steps), step)
  {
    assert (steps + [step])[..|steps|] == steps;
  }
}