/** What a reader of a TCP stream sees, over every run of Flow, with or without flow control and
    half-close: a prefix of what the peer wrote, and all of it when the peer ended the stream. */
module Fidelity {
  import opened Bytes
  import opened Receive
  import opened Flow
  import opened Credit

  /** Everything that reached the peer's receive side: read already, or waiting to be read. */
  function Received(p: Peer): Payload {
    Flatten(p.past.got) + Unread(p.rx)
  }

  function Written(p: Peer): Payload {
    Flatten(p.past.sent)
  }

  predicate IsEnd(f: Frame) {
    f.CloseWrite? || f.Close?
  }

  /** No DATA behind a CLOSE_WRITE or CLOSE. */
  predicate Ordered(wire: seq<Frame>) {
    forall i, j :: 0 <= i < j < |wire| && IsEnd(wire[i]) ==> !wire[j].Data?
  }

  predicate NoData(wire: seq<Frame>) {
    forall i :: 0 <= i < |wire| ==> !wire[i].Data?
  }

  predicate HasEnd(wire: seq<Frame>) {
    exists i :: 0 <= i < |wire| && IsEnd(wire[i])
  }

  predicate TcpPeerOk(p: Peer) {
    && RxOk(p.rx)
    && (|p.tx.taken| > 0 ==> p.tx.writing) && |p.tx.taken| <= 1
    && (p.done ==> p.tx.closed) && (p.tx.fin ==> p.tx.closed)
    && (p.tx.closeDue ==> p.done) && (p.tx.halfClosing ==> p.tx.fin && !p.tx.writing)
    && (p.past.endSent ==> p.tx.closed && !p.tx.writing)
    && (p.registered && (p.done || p.rx.closed) ==> p.past.ended)
    && (p.past.lost ==> !p.registered || p.rx.closed)
  }

  /** The direction from `a` to `b`. */
  predicate Faithful(s: Net) {
    && Ordered(s.ab) && (HasEnd(s.ab) ==> s.a.past.endSent)
    && (s.b.past.ended ==> s.a.past.endSent && NoData(s.ab))
    && Received(s.b) <= Written(s.a)
    && (!s.b.past.lost ==> Written(s.a) == Received(s.b) + DataOn(s.ab))
  }

  predicate Inv(s: Net) {
    TcpPeerOk(s.a) && TcpPeerOk(s.b) && Faithful(s) && Faithful(s.Swap())
  }

  // ---- One peer's action ----

  /** What an action may do to the history of the peer that takes it. */
  predicate Tells(p: Peer, e: Effect) {
    && TcpPeerOk(e.peer)
    && e.peer.past.sent
       == (if e.out.Some? && e.out.value.Data? then p.past.sent + [e.out.value.payload] else p.past.sent)
    && (e.out.Some? && e.out.value.Data? ==> !p.past.endSent)
    && e.peer.past.endSent == (p.past.endSent || (e.out.Some? && IsEnd(e.out.value)))
    && e.peer.past.ended == p.past.ended
    && (p.past.lost ==> e.peer.past.lost)
    && Received(e.peer) <= Received(p)
    && (!e.peer.past.lost ==> Received(e.peer) == Received(p))
  }

  lemma {:induction false} GotTells(p: Peer, rx: Rx, data: Payload)
    requires data + Unread(rx) == Unread(p.rx)
    ensures Received(Got(p, rx, data)) == Received(p)
  {
    FlattenSnoc(p.past.got, data);
    assert (Flatten(p.past.got) + data) + Unread(rx) == Flatten(p.past.got) + (data + Unread(rx));
  }

  lemma {:induction false} ReadTells(cfg: Cfg, p: Peer, room: nat)
    requires TcpPeerOk(p)
    ensures Tells(p, Quiet(ReadTcp(cfg, p, room)))
  {
    ReadBytesOk(p.rx, room);
    var out := ReadBytes(p.rx, room);
    if out.ready {
      GotTells(p, out.rx, out.data);
    } else {
      assert Unread(out.rx) == Unread(p.rx);
    }
  }

  lemma {:induction false} CloseReaderTells(p: Peer, discard: bool)
    requires TcpPeerOk(p) && p.done
    ensures Tells(p, Quiet(CloseReader(p, discard)))
  {
    CloseRxOk(p.rx, discard);
    if discard && p.rx.frames == 0 {
      assert |Unread(p.rx)| == 0;
    }
  }

  lemma {:induction false} SendTells(p: Peer, i: nat)
    requires TcpPeerOk(p)
    ensures Tells(p, SendPayload(p, i))
  {
  }

  lemma {:induction false} EndTells(cfg: Cfg, p: Peer, act: Act)
    requires cfg.tcp && TcpPeerOk(p) && (act.SendCloseWrite? || act.SendClose?)
    ensures Tells(p, Local(cfg, p, act))
  {
  }

  lemma {:induction false} WriteTells(cfg: Cfg, p: Peer, act: Act)
    requires cfg.tcp && TcpPeerOk(p)
             && (act.BeginWrite? || act.TakeCredit? || act.TakeForDatagram? || act.EndWrite? || act.BeginCloseWrite?)
    ensures Tells(p, Local(cfg, p, act))
  {
  }

  lemma {:induction false} FlushTells(p: Peer)
    requires TcpPeerOk(p)
    ensures Tells(p, FlushHeld(p))
  {
    assert Received(FlushHeld(p).peer) == Received(p);
  }

  lemma {:induction false} PendingTells(p: Peer)
    requires TcpPeerOk(p)
    ensures Tells(p, Quiet(TakePending(p)))
  {
    assert Received(TakePending(p)) == Received(p);
  }

  /** The acts that read nothing and send nothing. */
  lemma {:induction false} OtherTells(cfg: Cfg, p: Peer, act: Act)
    requires cfg.tcp && TcpPeerOk(p) && !act.SendTaken? && !act.Read? && !act.CloseRead? && !act.SendCloseWrite?
             && !act.SendClose?
    requires !act.FlushSend? && !act.FlushTake? && !act.BeginWrite? && !act.TakeCredit? && !act.TakeForDatagram?
             && !act.EndWrite? && !act.BeginCloseWrite?
    ensures Tells(p, Local(cfg, p, act))
  {
  }

  lemma {:induction false} LocalTells(cfg: Cfg, p: Peer, act: Act)
    requires cfg.tcp && TcpPeerOk(p)
    ensures Tells(p, Local(cfg, p, act))
  {
    match act
    case SendTaken(i) => SendTells(p, i);
    case Read(room) => ReadTells(cfg, p, room);
    case CloseRead(discard) =>
      if p.done {
        CloseReaderTells(p, discard);
      }
    case SendCloseWrite => EndTells(cfg, p, act);
    case SendClose => EndTells(cfg, p, act);
    case FlushSend => FlushTells(p);
    case FlushTake => PendingTells(p);
    case _ =>
      if act.BeginWrite? || act.TakeCredit? || act.TakeForDatagram? || act.EndWrite? || act.BeginCloseWrite? {
        WriteTells(cfg, p, act);
      } else {
        OtherTells(cfg, p, act);
      }
  }

  // ---- One frame arriving ----

  predicate Hears(p: Peer, f: Frame, q: Peer) {
    && TcpPeerOk(q)
    && q.past.sent == p.past.sent && q.past.endSent == p.past.endSent
    && (q.past.ended ==> p.past.ended || IsEnd(f))
    && (p.past.lost ==> q.past.lost)
    && (Received(q) == Received(p) || (!p.past.lost && Received(q) == Received(p) + PayloadOf(f)))
    && (!q.past.lost ==> Received(q) == Received(p) + PayloadOf(f))
  }

  lemma {:induction false} DataHeard(cfg: Cfg, p: Peer, d: Payload, admits: bool)
    requires cfg.tcp && TcpPeerOk(p) && !p.past.ended
    ensures Hears(p, Data(d), OnData(cfg, p, d, admits))
  {
    EnqueueOk(p.rx, d);
    assert Flatten(p.past.got) + (Unread(p.rx) + d) == Received(p) + d;
  }

  /** Frames without payload leave what was received alone. */
  lemma {:induction false} NothingReceived(p: Peer, f: Frame, q: Peer)
    requires !f.Data? && q.past.got == p.past.got && q.rx.buf == p.rx.buf && q.rx.queue == p.rx.queue
    ensures Received(q) == Received(p) && Received(q) == Received(p) + PayloadOf(f)
  {
    assert Received(p) + PayloadOf(f) == Received(p);
  }

  lemma {:induction false} CloseWriteHeard(cfg: Cfg, p: Peer, admits: bool)
    requires cfg.tcp && TcpPeerOk(p)
    ensures Hears(p, CloseWrite, OnFrame(cfg, p, CloseWrite, admits))
  {
    NothingReceived(p, CloseWrite, OnFrame(cfg, p, CloseWrite, admits));
  }

  lemma {:induction false} OtherHeard(cfg: Cfg, p: Peer, f: Frame, admits: bool)
    requires cfg.tcp && TcpPeerOk(p) && (f.WindowUpdate? || f.Close?)
    ensures Hears(p, f, OnFrame(cfg, p, f, admits))
  {
    NothingReceived(p, f, OnFrame(cfg, p, f, admits));
  }

  lemma {:induction false} HeardOnFrame(cfg: Cfg, p: Peer, f: Frame, admits: bool)
    requires cfg.tcp && TcpPeerOk(p) && (f.Data? ==> !p.past.ended)
    ensures Hears(p, f, OnFrame(cfg, p, f, admits))
  {
    if f.Data? {
      DataHeard(cfg, p, f.payload, admits);
    } else if f.CloseWrite? {
      CloseWriteHeard(cfg, p, admits);
    } else {
      OtherHeard(cfg, p, f, admits);
    }
  }

  // ---- Every run ----

  lemma {:induction false} LocalKeeps(cfg: Cfg, s: Net, act: Act)
    requires cfg.tcp && Inv(s) && !act.Deliver?
    ensures Inv(DoA(cfg, s, act))
  {
    var e := Local(cfg, s.a, act);
    LocalTells(cfg, s.a, act);
    if e.out.Some? {
      SentKeeps(s, e);
    } else {
      assert Faithful(DoA(cfg, s, act));
    }
  }

  /** A new frame at the end of the wire. */
  lemma {:induction false} SentKeeps(s: Net, e: Effect)
    requires Faithful(s) && Tells(s.a, e) && e.out.Some?
    ensures Faithful(s.(a := e.peer, ab := Put(s.ab, e.out)))
  {
    var f := e.out.value;
    PutOrder(s.ab, f, s.a.past.endSent);
    PutLast(s.ab, f);
    if f.Data? {
      FlattenSnoc(s.a.past.sent, f.payload);
    }
    PrefixGrows(Received(s.b), Written(s.a), DataOn(s.ab), PayloadOf(f));
  }

  lemma {:induction false} PutOrder(wire: seq<Frame>, f: Frame, endSent: bool)
    requires Ordered(wire) && (HasEnd(wire) ==> endSent) && (f.Data? ==> !endSent)
    ensures Ordered(wire + [f])
    ensures HasEnd(wire + [f]) ==> endSent || IsEnd(f)
    ensures NoData(wire) && endSent ==> NoData(wire + [f])
  {
    var w := wire + [f];
    assert forall i :: 0 <= i < |wire| ==> w[i] == wire[i];
    if HasEnd(w) && !IsEnd(f) {
      var i :| 0 <= i < |w| && IsEnd(w[i]);
      assert IsEnd(wire[i]);
    }
  }

  lemma {:induction false} PrefixGrows(read: Payload, written: Payload, flight: Payload, more: Payload)
    requires read <= written
    ensures read <= written + more
    ensures written == read + flight ==> written + more == read + (flight + more)
  {
  }

  lemma {:induction false} DeliverKeeps(cfg: Cfg, s: Net, admits: bool)
    requires cfg.tcp && Inv(s)
    ensures Inv(DoA(cfg, s, Deliver(admits)))
  {
    if |s.ba| > 0 && !s.a.down {
      var f := s.ba[0];
      HeardOnFrame(cfg, s.a, f, admits);
      ArrivedKeeps(s.Swap(), f, OnFrame(cfg, s.a, f, admits));
    }
  }

  /** The first frame leaves the wire for `b`. */
  lemma {:induction false} ArrivedKeeps(s: Net, f: Frame, q: Peer)
    requires Faithful(s) && |s.ab| > 0 && f == s.ab[0] && Hears(s.b, f, q)
    ensures Faithful(s.(b := q, ab := s.ab[1..]))
  {
    var rest := s.ab[1..];
    assert DataOn(s.ab) == PayloadOf(f) + DataOn(rest);
    assert forall i :: 0 <= i < |rest| ==> rest[i] == s.ab[i + 1];
    if IsEnd(f) {
      assert HasEnd(s.ab);
    }
    assert HasEnd(rest) ==> HasEnd(s.ab);
    if !s.b.past.lost {
      assert Written(s.a) == (Received(s.b) + PayloadOf(f)) + DataOn(rest);
    }
  }

  lemma {:induction false} StepKeeps(cfg: Cfg, s: Net, t: Turn)
    requires cfg.tcp && Inv(s)
    ensures Inv(Do(cfg, s, t))
  {
    var n := if t.byA then s else s.Swap();
    if t.act.Deliver? {
      DeliverKeeps(cfg, n, t.act.admits);
    } else {
      LocalKeeps(cfg, n, t.act);
    }
  }

  lemma {:induction false} EveryRunFaithful(cfg: Cfg, start: Net, turns: seq<Turn>)
    requires cfg.tcp && Start(cfg, start)
    ensures Inv(Run(cfg, start, turns))
    decreases |turns|
  {
    if |turns| > 0 {
      EveryRunFaithful(cfg, start, turns[..|turns| - 1]);
      StepKeeps(cfg, Run(cfg, start, turns[..|turns| - 1]), turns[|turns| - 1]);
    }
  }

  // ---- What the reader is promised ----

  /** The bytes returned by Read are, in every reachable state, a prefix of the bytes the peer
      framed; and no DATA follows CLOSE_WRITE or CLOSE on the wire. */
  lemma {:induction false} ReaderSeesFrames(cfg: Cfg, start: Net, turns: seq<Turn>)
    requires cfg.tcp && Start(cfg, start)
    ensures var s := Run(cfg, start, turns); Flatten(s.b.past.got) <= Written(s.a) && Ordered(s.ab)
  {
    EveryRunFaithful(cfg, start, turns);
    var s := Run(cfg, start, turns);
    assert Flatten(s.b.past.got) <= Received(s.b);
  }

  /** A peer whose CLOSE_WRITE or CLOSE has left never frames another byte. */
  lemma {:induction false} NothingWrittenAfterEnd(cfg: Cfg, s: Net, turns: seq<Turn>)
    requires cfg.tcp && Inv(s) && s.a.past.endSent
    ensures var n := Run(cfg, s, turns); Inv(n) && n.a.past.endSent && n.a.past.sent == s.a.past.sent
    decreases |turns|
  {
    if |turns| > 0 {
      var n, t := Run(cfg, s, turns[..|turns| - 1]), turns[|turns| - 1];
      NothingWrittenAfterEnd(cfg, s, turns[..|turns| - 1]);
      StepKeeps(cfg, n, t);
      if t.byA && t.act.Deliver? {
        if |n.ba| > 0 && !n.a.down {
          HeardOnFrame(cfg, n.a, n.ba[0], t.act.admits);
        }
      } else if t.byA {
        LocalTells(cfg, n.a, t.act);
      }
    }
  }

  /** End of file after the peer's CLOSE_WRITE or CLOSE, with nothing discarded on this side: the
      reader has every byte the peer framed and, whatever happens next, will ever have framed. */
  lemma {:induction false} FramesAreComplete(cfg: Cfg, start: Net, turns: seq<Turn>, later: seq<Turn>, room: nat)
    requires cfg.tcp && Start(cfg, start)
    requires var b := Run(cfg, start, turns).b;
             b.past.ended && !b.past.lost && !ReadBytes(b.rx, room).ready
    ensures var a := Run(cfg, start, turns + later).a;
            !a.tx.writing && Flatten(Run(cfg, start, turns).b.past.got) == Written(a)
  {
    EveryRunFaithful(cfg, start, turns);
    var s := Run(cfg, start, turns);
    ReadBytesOk(s.b.rx, room);
    NoDataMeansEmpty(s.ab);
    NothingWrittenAfterEnd(cfg, s, later);
    RunConcat(cfg, start, turns, later);
  }

  lemma {:induction false} NoDataMeansEmpty(wire: seq<Frame>)
    requires NoData(wire)
    ensures |DataOn(wire)| == 0
    decreases |wire|
  {
    if |wire| > 0 {
      NoDataMeansEmpty(wire[1..]);
    }
  }

  /** Between honest peers the test for DATA after CLOSE_WRITE never fires: a DATA frame finds a
      registered stream with its read side open. */
  lemma {:induction false} DataFindsReadSideOpen(cfg: Cfg, start: Net, turns: seq<Turn>)
    requires cfg.tcp && Start(cfg, start)
    requires var s := Run(cfg, start, turns); |s.ba| > 0 && s.ba[0].Data? && s.a.registered
    ensures !Run(cfg, start, turns).a.rx.closed && !Run(cfg, start, turns).a.done
  {
    EveryRunFaithful(cfg, start, turns);
  }

  // ---- UDP ----

  lemma {:induction false} CloseLeaves(cfg: Cfg, start: Net)
    requires !cfg.tcp && Start(cfg, start)
    ensures var s := Do(cfg, Do(cfg, start, Turn(true, CloseStream)), Turn(true, SendClose));
            s.ab == [Close] && !s.a.down && |s.a.tx.taken| == 0 && s.a.tx.credit == start.a.tx.credit
  {
  }

  lemma {:induction false} DatagramLeaves(cfg: Cfg, s: Net, packet: Payload)
    requires !cfg.tcp && !s.a.down && |s.a.tx.taken| == 0 && |packet| <= MAX_DATAGRAM
    requires cfg.flowControl ==> CanTake(s.a.tx.credit, |packet|, true)
    ensures var n := Do(cfg, Do(cfg, s, Turn(true, TakeForDatagram(packet))), Turn(true, SendTaken(0)));
            n.ab == s.ab + [Data(packet)]
  {
    var s1 := Do(cfg, s, Turn(true, TakeForDatagram(packet)));
    assert s1.a.tx.taken[0] == packet && s1.ab == s.ab && !s1.a.down;
  }

  /** WriteDatagram looks at neither txMu nor txClosed, so on a UDP stream a DATAGRAM can follow
      the CLOSE of its own side. */
  lemma {:induction false} DatagramCanFollowClose(cfg: Cfg, start: Net, packet: Payload) returns (turns: seq<Turn>)
    requires !cfg.tcp && Start(cfg, start) && |packet| <= MAX_DATAGRAM
    ensures Run(cfg, start, turns).ab == [Close, Data(packet)]
  {
    var closing := [Turn(true, CloseStream), Turn(true, SendClose)];
    var sending := [Turn(true, TakeForDatagram(packet)), Turn(true, SendTaken(0))];
    RunTwo(cfg, start, Turn(true, CloseStream), Turn(true, SendClose));
    CloseLeaves(cfg, start);
    var s := Run(cfg, start, closing);
    RunTwo(cfg, s, Turn(true, TakeForDatagram(packet)), Turn(true, SendTaken(0)));
    DatagramLeaves(cfg, s, packet);
    RunConcat(cfg, start, closing, sending);
    turns := closing + sending;
  }
}
