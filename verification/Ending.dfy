/** How a stream ends (go/internal/tunnel/tunnel.go): CLOSE_WRITE and CLOSE get through, in order and once;
    a dead connection is silent; and a peer that does not keep to the protocol cannot inflate the credit. */
module Ending {
  import opened Bytes
  import opened Receive
  import opened Flow

  // ---- The end gets through ----

  /** Frames arrive at `b` and nothing else happens. */
  predicate AllArrive(turns: seq<Turn>) {
    forall i :: 0 <= i < |turns| ==> !turns[i].byA && turns[i].act.Deliver?
  }

  /** Frames arrive in the order in which they were sent, none of them twice. */
  lemma {:induction false} ArriveInOrder(cfg: Cfg, s: Net, turns: seq<Turn>)
    requires AllArrive(turns) && |turns| <= |s.ab| && !s.b.down
    ensures var n := Run(cfg, s, turns); n.ab == s.ab[|turns|..] && n.a == s.a && !n.b.down
    decreases |turns|
  {
    if |turns| > 0 {
      var k := |turns| - 1;
      ArriveInOrder(cfg, s, turns[..k]);
      var n := Run(cfg, s, turns[..k]);
      assert n.ab[0] == s.ab[k];
      FrameKeepsConnection(cfg, n.b, s.ab[k], turns[k].act.admits);
    }
  }

  lemma {:induction false} FrameKeepsConnection(cfg: Cfg, p: Peer, f: Frame, admits: bool)
    ensures OnFrame(cfg, p, f, admits).down == p.down
  {
  }

  lemma {:induction false} LastArrives(cfg: Cfg, s: Net, turns: seq<Turn>)
    requires AllArrive(turns) && |turns| == |s.ab| > 0 && !s.b.down
    ensures var k := |turns| - 1;
            Run(cfg, s, turns).b == OnFrame(cfg, Run(cfg, s, turns[..k]).b, s.ab[k], turns[k].act.admits)
  {
    var k := |turns| - 1;
    ArriveInOrder(cfg, s, turns[..k]);
    assert Run(cfg, s, turns[..k]).ab[0] == s.ab[k];
  }

  /** CloseWrite, once the writer is free: it closes the write side alone, its frame follows what was
      sent, and once all of that has arrived the peer's read side is at its end, if the peer still has the
      stream. */
  lemma {:induction false} CloseWriteArrives(cfg: Cfg, s: Net, turns: seq<Turn>)
    requires cfg.tcp && cfg.halfClose && TxFree(s.a.tx) && !s.a.done && !s.a.tx.fin && !s.a.down && !s.b.down
    requires AllArrive(turns) && |turns| == |s.ab| + 1
    ensures var c := Run(cfg, s, [Turn(true, BeginCloseWrite), Turn(true, SendCloseWrite)]);
            && c.a.tx.closed && !c.a.done && c.a.rx == s.a.rx && c.a.registered == s.a.registered
            && c.ab == s.ab + [CloseWrite]
            && var n := Run(cfg, c, turns);
               |n.ab| == 0 && (n.b.registered ==> n.b.past.ended && n.b.rx.closed)
  {
    var c := Run(cfg, s, [Turn(true, BeginCloseWrite), Turn(true, SendCloseWrite)]);
    RunTwo(cfg, s, Turn(true, BeginCloseWrite), Turn(true, SendCloseWrite));
    assert c.ab == s.ab + [CloseWrite] && c.b == s.b;
    ArriveInOrder(cfg, c, turns);
    LastArrives(cfg, c, turns);
  }

  /** Close, once the writer is free: the stream is gone on this side at once, its frame follows what was
      sent, and once all of that has arrived the peer is done too, if it still has the stream. */
  lemma {:induction false} CloseArrives(cfg: Cfg, s: Net, turns: seq<Turn>)
    requires TxFree(s.a.tx) && !s.a.done && !s.a.down && !s.b.down
    requires AllArrive(turns) && |turns| == |s.ab| + 1
    ensures var c := Run(cfg, s, [Turn(true, CloseStream), Turn(true, SendClose)]);
            && c.a.done && c.a.tx.closed && !c.a.registered && c.ab == s.ab + [Close]
            && var n := Run(cfg, c, turns);
               |n.ab| == 0 && (n.b.registered ==> n.b.past.ended && n.b.done && n.b.tx.closed)
  {
    var c := Run(cfg, s, [Turn(true, CloseStream), Turn(true, SendClose)]);
    RunTwo(cfg, s, Turn(true, CloseStream), Turn(true, SendClose));
    assert c.ab == s.ab + [Close] && c.b == s.b;
    ArriveInOrder(cfg, c, turns);
    LastArrives(cfg, c, turns);
  }

  /** Close lets go of all that the reader has not seen. */
  lemma {:induction false} CloseDropsUnread(cfg: Cfg, s: Net)
    requires RxOk(s.a.rx)
    ensures var rx := Run(cfg, s, [Turn(true, CloseStream), Turn(true, CloseRead(true))]).a.rx;
            RxOk(rx) && rx.closed && rx.queued == 0 && rx.frames == 0 && |Unread(rx)| == 0
  {
    RunTwo(cfg, s, Turn(true, CloseStream), Turn(true, CloseRead(true)));
    CloseRxOk(s.a.rx, true);
  }

  // ---- Each end is sent once ----

  /** Nothing ends twice, and CLOSE_WRITE does not come behind CLOSE. */
  predicate EndsOnce(wire: seq<Frame>) {
    forall i, j :: 0 <= i < j < |wire| ==>
      && (wire[i].Close? ==> !wire[j].Close? && !wire[j].CloseWrite?)
      && (wire[i].CloseWrite? ==> !wire[j].CloseWrite?)
  }

  predicate ClosesOk(p: Peer, wire: seq<Frame>) {
    && EndsOnce(wire) && (p.tx.halfClosing ==> p.tx.fin) && (p.tx.closeDue ==> p.done)
    && (Close in wire ==> p.done && !p.tx.closeDue && !p.tx.halfClosing)
    && (CloseWrite in wire ==> p.tx.fin && !p.tx.halfClosing)
  }

  predicate BothOk(s: Net) {
    ClosesOk(s.a, s.ab) && ClosesOk(s.b, s.ba)
  }

  /** How an action bears on the ends: what it sends, it was due to send and is not again. */
  predicate EndsWell(p: Peer, e: Effect) {
    var q := e.peer;
    && (q.tx.halfClosing ==> q.tx.fin) && (q.tx.closeDue ==> q.done)
    && (p.done ==> q.done && (q.tx.closeDue ==> p.tx.closeDue) && (q.tx.halfClosing ==> p.tx.halfClosing))
    && (p.tx.fin ==> q.tx.fin && (q.tx.halfClosing ==> p.tx.halfClosing))
    && (e.out == Some(CloseWrite) ==> p.tx.halfClosing && !q.tx.halfClosing)
    && (e.out == Some(Close) ==> p.tx.closeDue && !p.tx.halfClosing && !q.tx.closeDue && !q.tx.halfClosing)
  }

  /** The actions that end something. */
  predicate Ends(act: Act) {
    act.BeginCloseWrite? || act.SendCloseWrite? || act.CloseStream? || act.SendClose?
  }

  lemma {:induction false} EndingEndsWell(cfg: Cfg, p: Peer, act: Act)
    requires Ends(act) && (p.tx.halfClosing ==> p.tx.fin) && (p.tx.closeDue ==> p.done)
    ensures EndsWell(p, Local(cfg, p, act))
  {
  }

  predicate EndsNothing(p: Peer, e: Effect) {
    && e.peer.done == p.done && e.peer.tx.fin == p.tx.fin && e.peer.tx.closed == p.tx.closed
    && e.peer.tx.halfClosing == p.tx.halfClosing && e.peer.tx.closeDue == p.tx.closeDue
    && (e.peer.registered ==> p.registered)
    && e.out != Some(Close) && e.out != Some(CloseWrite)
  }

  lemma {:induction false} SendEndsNothing(p: Peer, i: nat)
    ensures EndsNothing(p, SendPayload(p, i))
  {
  }

  lemma {:induction false} TakingEndsNothing(cfg: Cfg, p: Peer, act: Act)
    requires act.BeginWrite? || act.TakeCredit? || act.TakeForDatagram? || act.EndWrite?
    ensures EndsNothing(p, Local(cfg, p, act))
  {
  }

  lemma {:induction false} ReadingEndsNothing(cfg: Cfg, p: Peer, act: Act)
    requires act.Read? || act.ReadDatagram?
    ensures EndsNothing(p, Local(cfg, p, act))
  {
  }

  lemma {:induction false} RestEndsNothing(cfg: Cfg, p: Peer, act: Act)
    requires act.FlushTake? || act.FlushSend? || act.Deliver? || act.CloseRead? || act.Unregister? || act.CloseRaw?
    ensures EndsNothing(p, Local(cfg, p, act))
  {
  }

  lemma {:induction false} OthersEndNothing(cfg: Cfg, p: Peer, act: Act)
    requires !Ends(act)
    ensures EndsNothing(p, Local(cfg, p, act))
  {
    if act.SendTaken? {
      SendEndsNothing(p, act.index);
    } else if act.BeginWrite? || act.TakeCredit? || act.TakeForDatagram? || act.EndWrite? {
      TakingEndsNothing(cfg, p, act);
    } else if act.Read? || act.ReadDatagram? {
      ReadingEndsNothing(cfg, p, act);
    } else {
      RestEndsNothing(cfg, p, act);
    }
  }

  lemma {:induction false} LocalEndsWell(cfg: Cfg, p: Peer, act: Act)
    requires (p.tx.halfClosing ==> p.tx.fin) && (p.tx.closeDue ==> p.done)
    ensures EndsWell(p, Local(cfg, p, act))
  {
    if Ends(act) {
      EndingEndsWell(cfg, p, act);
    } else {
      OthersEndNothing(cfg, p, act);
    }
  }

  lemma {:induction false} FrameEndsWell(cfg: Cfg, p: Peer, f: Frame, admits: bool)
    requires (p.tx.halfClosing ==> p.tx.fin) && (p.tx.closeDue ==> p.done)
    ensures EndsWell(p, Quiet(OnFrame(cfg, p, f, admits)))
  {
  }

  lemma {:induction false} PutEndsOnce(p: Peer, e: Effect, wire: seq<Frame>)
    requires ClosesOk(p, wire) && EndsWell(p, e)
    ensures ClosesOk(e.peer, Put(wire, e.out))
  {
  }

  lemma {:induction false} TailEndsOnce(p: Peer, wire: seq<Frame>)
    requires ClosesOk(p, wire) && |wire| > 0
    ensures ClosesOk(p, wire[1..])
  {
    var rest := wire[1..];
    assert forall f :: f in rest ==> f in wire;
  }

  lemma {:induction false} StepEndsOnce(cfg: Cfg, s: Net, act: Act)
    requires BothOk(s)
    ensures BothOk(DoA(cfg, s, act))
  {
    if act.Deliver? {
      if |s.ba| > 0 && !s.a.down {
        FrameEndsWell(cfg, s.a, s.ba[0], act.admits);
        PutEndsOnce(s.a, Quiet(OnFrame(cfg, s.a, s.ba[0], act.admits)), s.ab);
        TailEndsOnce(s.b, s.ba);
      }
    } else {
      LocalEndsWell(cfg, s.a, act);
      PutEndsOnce(s.a, Local(cfg, s.a, act), s.ab);
    }
  }

  /** In every run, in both directions, CLOSE and CLOSE_WRITE are on the way at most once each, and
      CLOSE_WRITE not behind CLOSE. */
  lemma {:induction false} EveryRunEndsOnce(cfg: Cfg, start: Net, turns: seq<Turn>)
    requires Start(cfg, start)
    ensures BothOk(Run(cfg, start, turns))
    decreases |turns|
  {
    if |turns| > 0 {
      var k := |turns| - 1;
      EveryRunEndsOnce(cfg, start, turns[..k]);
      var s := Run(cfg, start, turns[..k]);
      StepEndsOnce(cfg, if turns[k].byA then s else s.Swap(), turns[k].act);
    }
  }

  // ---- A dead connection ----

  /** Once the connection is closed on one side, nothing more leaves it and nothing more reaches it. */
  lemma {:induction false} DeadPeerIsSilent(cfg: Cfg, s: Net, turns: seq<Turn>)
    ensures var n := Run(cfg, Do(cfg, s, Turn(true, CloseRaw)), turns);
            n.a.down && n.a.past.sent == s.a.past.sent && n.a.past.ended == s.a.past.ended
            && |n.ab| <= |s.ab| && s.ba <= n.ba
    decreases |turns|
  {
    if |turns| > 0 {
      var k := |turns| - 1;
      DeadPeerIsSilent(cfg, s, turns[..k]);
      var n := Run(cfg, Do(cfg, s, Turn(true, CloseRaw)), turns[..k]);
      if turns[k].byA {
        DownIsQuiet(cfg, n.a, turns[k].act);
      }
    }
  }

  lemma {:induction false} DownIsQuiet(cfg: Cfg, p: Peer, act: Act)
    requires p.down
    ensures var e := Local(cfg, p, act);
            e.out == None && e.peer.down && e.peer.past.sent == p.past.sent && e.peer.past.ended == p.past.ended
  {
  }

  // ---- A peer that does not keep to the protocol ----

  /** One peer on its own: it acts, and any frames arrive in any order. */
  datatype Event = Acts(act: Act) | Arrives(frame: Frame, admits: bool)

  function Meets(cfg: Cfg, p: Peer, event: Event): Peer {
    if event.Acts? then Local(cfg, p, event.act).peer else OnFrame(cfg, p, event.frame, event.admits)
  }

  function MeetsAll(cfg: Cfg, p: Peer, events: seq<Event>): Peer
    decreases |events|
  {
    if |events| == 0 then p else Meets(cfg, MeetsAll(cfg, p, events[..|events| - 1]), events[|events| - 1])
  }

  predicate InRange(cfg: Cfg, p: Peer) {
    0 <= p.tx.credit <= cfg.Cap()
  }

  lemma {:induction false} LocalKeepsRange(cfg: Cfg, p: Peer, act: Act)
    requires InRange(cfg, p)
    ensures InRange(cfg, Local(cfg, p, act).peer)
  {
  }

  lemma {:induction false} FrameKeepsRange(cfg: Cfg, p: Peer, f: Frame, admits: bool)
    requires InRange(cfg, p)
    ensures InRange(cfg, OnFrame(cfg, p, f, admits))
  {
  }

  /** Whatever frames arrive, the credit stays between nothing and the cap. */
  lemma {:induction false} CreditStaysInRange(cfg: Cfg, p: Peer, events: seq<Event>)
    requires InRange(cfg, p)
    ensures InRange(cfg, MeetsAll(cfg, p, events))
    decreases |events|
  {
    if |events| > 0 {
      var k := |events| - 1;
      CreditStaysInRange(cfg, p, events[..k]);
      if events[k].Acts? {
        LocalKeepsRange(cfg, MeetsAll(cfg, p, events[..k]), events[k].act);
      } else {
        FrameKeepsRange(cfg, MeetsAll(cfg, p, events[..k]), events[k].frame, events[k].admits);
      }
    }
  }

  predicate Gone(p: Peer) {
    !p.registered && p.done && p.tx.closed
  }

  lemma {:induction false} GoneAfterAct(cfg: Cfg, p: Peer, act: Act)
    requires Gone(p)
    ensures Gone(Local(cfg, p, act).peer)
  {
    if !Ends(act) {
      OthersEndNothing(cfg, p, act);
    }
  }

  lemma {:induction false} GoneStaysGone(cfg: Cfg, p: Peer, event: Event)
    requires Gone(p)
    ensures Gone(Meets(cfg, p, event))
  {
    if event.Acts? {
      GoneAfterAct(cfg, p, event.act);
    }
  }

  /** An update of nothing, of too much, or beyond the cap aborts the stream for good: it is closed, and
      CLOSE is due if it was not before. */
  lemma {:induction false} BadUpdateEndsTheStream(cfg: Cfg, p: Peer, c: nat, admits: bool, events: seq<Event>)
    requires p.registered && !p.done && !p.tx.closed
    requires c == 0 || c > MAX_WINDOW_UPDATE || p.tx.credit + c > cfg.Cap()
    ensures OnFrame(cfg, p, WindowUpdate(c), admits).tx.closeDue
    ensures Gone(MeetsAll(cfg, OnFrame(cfg, p, WindowUpdate(c), admits), events))
    decreases |events|
  {
    if |events| > 0 {
      var k := |events| - 1;
      BadUpdateEndsTheStream(cfg, p, c, admits, events[..k]);
      GoneStaysGone(cfg, MeetsAll(cfg, OnFrame(cfg, p, WindowUpdate(c), admits), events[..k]), events[k]);
    }
  }
}
