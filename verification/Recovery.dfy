/** Credit is never stranded: once the reader of a stream has caught up, its sender can always get
    back to full credit, whatever else is in flight. */
module Recovery {
  import opened Bytes
  import opened Receive
  import opened Flow
  import Credit
  import Fidelity

  // ---- What else every run keeps ----

  /** A CLOSE is due or in flight only from a peer that is done. */
  predicate CloseMeansDone(p: Peer, wire: seq<Frame>) {
    (p.tx.closeDue ==> p.done) && forall i :: 0 <= i < |wire| && wire[i].Close? ==> p.done
  }

  predicate Good(cfg: Cfg, s: Net) {
    && Credit.Inv(cfg, s) && (cfg.tcp ==> Fidelity.Inv(s))
    && CloseMeansDone(s.a, s.ab) && CloseMeansDone(s.b, s.ba)
  }

  lemma {:induction false} LocalCloses(cfg: Cfg, p: Peer, wire: seq<Frame>, act: Act)
    requires CloseMeansDone(p, wire) && !act.Deliver?
    ensures var e := Local(cfg, p, act); CloseMeansDone(e.peer, Put(wire, e.out))
  {
  }

  lemma {:induction false} DeliverCloses(cfg: Cfg, p: Peer, wire: seq<Frame>, f: Frame, admits: bool)
    requires CloseMeansDone(p, wire)
    ensures CloseMeansDone(OnFrame(cfg, p, f, admits), wire)
  {
  }

  lemma {:induction false} StepCloses(cfg: Cfg, s: Net, act: Act)
    requires CloseMeansDone(s.a, s.ab) && CloseMeansDone(s.b, s.ba)
    ensures var n := DoA(cfg, s, act); CloseMeansDone(n.a, n.ab) && CloseMeansDone(n.b, n.ba)
  {
    if !act.Deliver? {
      LocalCloses(cfg, s.a, s.ab, act);
    } else if |s.ba| > 0 {
      DeliverCloses(cfg, s.a, s.ab, s.ba[0], act.admits);
    }
  }

  lemma {:induction false} StepKeepsGood(cfg: Cfg, s: Net, t: Turn)
    requires cfg.flowControl && Good(cfg, s)
    ensures Good(cfg, Do(cfg, s, t))
  {
    Credit.StepKeeps(cfg, s, t);
    if cfg.tcp {
      Fidelity.StepKeeps(cfg, s, t);
    }
    StepCloses(cfg, if t.byA then s else s.Swap(), t.act);
  }

  lemma {:induction false} EveryRunIsGood(cfg: Cfg, start: Net, turns: seq<Turn>)
    requires cfg.flowControl && Start(cfg, start)
    ensures Good(cfg, Run(cfg, start, turns))
    decreases |turns|
  {
    Credit.EveryRunConserves(cfg, start, turns);
    if cfg.tcp {
      Fidelity.EveryRunFaithful(cfg, start, turns);
    }
    if |turns| > 0 {
      EveryRunIsGood(cfg, start, turns[..|turns| - 1]);
      StepKeepsGood(cfg, Run(cfg, start, turns[..|turns| - 1]), turns[|turns| - 1]);
    }
  }

  // ---- The way home ----

  /** Nothing of `a` is taken, in flight or unread at `b`. */
  predicate CaughtUp(s: Net) {
    |s.a.tx.taken| == 0 && |Credit.DataOn(s.ab)| == 0 && s.b.rx.queued == 0
  }

  predicate OnTheWay(cfg: Cfg, s: Net) {
    Good(cfg, s) && Credit.Live(s) && CaughtUp(s)
  }

  /** A flush at the receiver, or a delivery or a read at the sender's own end. */
  predicate Recovers(t: Turn) {
    if t.byA then t.act.Deliver? || t.act.Read? else t.act.FlushTake? || t.act.FlushSend?
  }

  predicate AllRecover(turns: seq<Turn>) {
    forall i :: 0 <= i < |turns| ==> Recovers(turns[i])
  }

  function Backhaul(s: Net): nat {
    2 * s.b.window.pending + s.b.window.held
  }

  function FlushOf(s: Net): Turn {
    Turn(false, if s.b.window.held > 0 then FlushSend else FlushTake)
  }

  lemma {:induction false} FlushProgress(cfg: Cfg, s: Net)
    requires Credit.Live(s) && CaughtUp(s) && Backhaul(s) > 0
    requires s.b.window.pending > 0 || s.b.window.held > 0 ==> s.b.window.sending
    ensures var n := Do(cfg, s, FlushOf(s)); Credit.Live(n) && CaughtUp(n) && Backhaul(n) < Backhaul(s)
  {
  }

  /** The flusher of `b` takes what is pending, or sends what it holds. */
  lemma {:induction false} FlushTurn(cfg: Cfg, s: Net) returns (t: Turn)
    requires cfg.flowControl && OnTheWay(cfg, s) && Backhaul(s) > 0
    ensures OnTheWay(cfg, Do(cfg, s, t)) && Backhaul(Do(cfg, s, t)) < Backhaul(s)
    ensures Recovers(t)
  {
    t := FlushOf(s);
    StepKeepsGood(cfg, s, t);
    FlushProgress(cfg, s);
  }

  lemma {:induction false} DeliveryTurn(cfg: Cfg, s: Net)
    requires cfg.flowControl && OnTheWay(cfg, s) && |s.ba| > 0
    requires cfg.tcp && s.ba[0].Data? ==> s.a.rx.frames < FrameLimit(true, true)
    ensures var n := Do(cfg, s, Turn(true, Deliver(true)));
            OnTheWay(cfg, n) && n.b == s.b && |n.ba| < |s.ba|
  {
    var t := Turn(true, Deliver(true));
    StepKeepsGood(cfg, s, t);
    Arrives(cfg, s);
  }

  /** The stream at `a` is open for sending as before. */
  predicate StaysOpen(p: Peer, q: Peer) {
    q.registered && !q.tx.closed && !q.down && q.tx.taken == p.tx.taken
  }

  lemma {:induction false} CreditArrives(cfg: Cfg, s: Net)
    requires cfg.flowControl && OnTheWay(cfg, s) && |s.ba| > 0 && s.ba[0].WindowUpdate?
    ensures StaysOpen(s.a, OnFrame(cfg, s.a, s.ba[0], true))
  {
    Credit.SidesNonnegative(cfg, s);
    assert Credit.FrameOk(cfg, s.ba[0]);
    assert Credit.CreditOn(s.ba) == Credit.CreditOf(s.ba[0]) + Credit.CreditOn(s.ba[1..]);
  }

  lemma {:induction false} DataArrives(cfg: Cfg, s: Net)
    requires cfg.flowControl && OnTheWay(cfg, s) && |s.ba| > 0 && s.ba[0].Data?
    requires cfg.tcp ==> s.a.rx.frames < FrameLimit(true, true)
    ensures StaysOpen(s.a, OnFrame(cfg, s.a, s.ba[0], true))
  {
    if cfg.tcp {
      Credit.SidesNonnegative(cfg, s);
      assert Credit.DataOn(s.ba) == Credit.PayloadOf(s.ba[0]) + Credit.DataOn(s.ba[1..]);
      OpenForData(s);
    }
  }

  /** The frame is taken without closing the stream at `a`. */
  lemma {:induction false} Arrives(cfg: Cfg, s: Net)
    requires cfg.flowControl && OnTheWay(cfg, s) && |s.ba| > 0
    requires cfg.tcp && s.ba[0].Data? ==> s.a.rx.frames < FrameLimit(true, true)
    ensures StaysOpen(s.a, OnFrame(cfg, s.a, s.ba[0], true))
  {
    match s.ba[0]
    case Data(_) => DataArrives(cfg, s);
    case WindowUpdate(_) => CreditArrives(cfg, s);
    case CloseWrite =>
    case Close =>
      assert false;
  }

  /** Between honest peers a DATA frame finds the read side open. */
  lemma {:induction false} OpenForData(s: Net)
    requires Fidelity.Inv(s) && s.a.registered && |s.ba| > 0 && s.ba[0].Data?
    ensures !s.a.rx.closed
  {
  }

  /** Reading a whole frame makes room for one. */
  lemma {:induction false} ReadFreesAFrame(rx: Rx)
    requires RxOk(rx) && rx.frames > 0
    ensures ReadBytes(rx, |Unread(rx)|).rx.frames < rx.frames
  {
    AdvanceOk(rx);
    var r := Advance(rx);
    assert |r.buf| <= |Unread(r)|;
  }

  lemma {:induction false} ReadProgress(cfg: Cfg, s: Net, t: Turn)
    requires cfg.tcp && Credit.Live(s) && CaughtUp(s) && RxOk(s.a.rx) && s.a.rx.frames > 0
    requires t == Turn(true, Read(|Unread(s.a.rx)|))
    ensures var n := Do(cfg, s, t);
            Credit.Live(n) && CaughtUp(n) && n.b == s.b && n.ba == s.ba && n.a.rx.frames < s.a.rx.frames
  {
    ReadTouchesOnlyReceiving(cfg, s.a);
  }

  lemma {:induction false} ReadTurn(cfg: Cfg, s: Net) returns (t: Turn)
    requires cfg.flowControl && cfg.tcp && OnTheWay(cfg, s) && s.a.rx.frames > 0
    ensures var n := Do(cfg, s, t);
            OnTheWay(cfg, n) && n.b == s.b && n.ba == s.ba && n.a.rx.frames < s.a.rx.frames
    ensures Recovers(t)
  {
    t := Turn(true, Read(|Unread(s.a.rx)|));
    StepKeepsGood(cfg, s, t);
    ReadProgress(cfg, s, t);
  }

  lemma {:induction false} ReadTouchesOnlyReceiving(cfg: Cfg, p: Peer)
    requires RxOk(p.rx) && p.rx.frames > 0
    ensures var q := ReadTcp(cfg, p, |Unread(p.rx)|);
            && q.tx == p.tx && q.registered == p.registered && q.down == p.down && q.done == p.done
            && q.rx.frames < p.rx.frames
  {
    ReadFreesAFrame(p.rx);
  }

  /** One turn closer to full credit. */
  lemma {:induction false} NextTurn(cfg: Cfg, s: Net) returns (t: Turn)
    requires cfg.flowControl && OnTheWay(cfg, s) && (Backhaul(s) > 0 || |s.ba| > 0)
    ensures var n := Do(cfg, s, t);
            && Recovers(t) && OnTheWay(cfg, n) && RxOk(n.a.rx)
            && (|| Backhaul(n) < Backhaul(s)
                || (Backhaul(n) == Backhaul(s) && |n.ba| < |s.ba|)
                || (Backhaul(n) == Backhaul(s) && |n.ba| == |s.ba| && n.a.rx.frames < s.a.rx.frames))
  {
    if Backhaul(s) > 0 {
      t := FlushTurn(cfg, s);
    } else if cfg.tcp && s.a.rx.frames >= FrameLimit(true, true) {
      t := ReadTurn(cfg, s);
    } else {
      t := Turn(true, Deliver(true));
      DeliveryTurn(cfg, s);
    }
  }

  lemma {:induction false} FullCredit(cfg: Cfg, s: Net)
    requires cfg.flowControl && OnTheWay(cfg, s) && Backhaul(s) == 0 && |s.ba| == 0
    ensures s.a.tx.credit == cfg.Cap()
  {
  }

  lemma {:induction false} TurnFirst(cfg: Cfg, s: Net, t: Turn, later: seq<Turn>)
    requires Recovers(t) && AllRecover(later)
    ensures Run(cfg, s, [t] + later) == Run(cfg, Do(cfg, s, t), later) && AllRecover([t] + later)
  {
    RunSingle(cfg, s, t);
    RunConcat(cfg, s, [t], later);
  }

  lemma {:induction false} WayHome(cfg: Cfg, s: Net) returns (turns: seq<Turn>)
    requires cfg.flowControl && OnTheWay(cfg, s) && RxOk(s.a.rx)
    ensures var n := Run(cfg, s, turns); n.a.tx.credit == cfg.Cap() && Credit.Live(n) && CaughtUp(n)
    ensures AllRecover(turns)
    decreases Backhaul(s), |s.ba|, s.a.rx.frames
  {
    turns := [];
    if Backhaul(s) == 0 && |s.ba| == 0 {
      FullCredit(cfg, s);
    } else {
      var t := NextTurn(cfg, s);
      var later := WayHome(cfg, Do(cfg, s, t));
      TurnFirst(cfg, s, t, later);
      turns := [t] + later;
    }
  }

  /** From every reachable state of a live stream whose reader has caught up, whatever frames are in
      flight towards the sender, flushes at the receiver, deliveries and reads at the sender's own end
      bring it back to full credit, still live. */
  lemma {:induction false} CreditComesHome(cfg: Cfg, start: Net, turns: seq<Turn>) returns (later: seq<Turn>)
    requires cfg.flowControl && Start(cfg, start)
    requires Credit.Live(Run(cfg, start, turns)) && CaughtUp(Run(cfg, start, turns))
    ensures var n := Run(cfg, start, turns + later); n.a.tx.credit == cfg.Cap() && Credit.Live(n) && CaughtUp(n)
    ensures AllRecover(later)
  {
    EveryRunIsGood(cfg, start, turns);
    later := WayHome(cfg, Run(cfg, start, turns));
    RunConcat(cfg, start, turns, later);
  }
}
