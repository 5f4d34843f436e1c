/** Conservation of flow-control credit between two honest peers, over every run of Flow. */
module Credit {
  import opened Bytes
  import opened Receive
  import opened Flow

  // ---- What is in flight ----

  function PayloadOf(f: Frame): Payload {
    if f.Data? then f.payload else []
  }

  function CreditOf(f: Frame): nat {
    if f.WindowUpdate? then f.credit else 0
  }

  /** The payload bytes on a wire, in order. */
  function DataOn(wire: seq<Frame>): Payload {
    if |wire| == 0 then [] else PayloadOf(wire[0]) + DataOn(wire[1..])
  }

  /** The credit on a wire. */
  function CreditOn(wire: seq<Frame>): nat {
    if |wire| == 0 then 0 else CreditOf(wire[0]) + CreditOn(wire[1..])
  }

  lemma {:induction false} DataOnOne(wire: seq<Frame>)
    requires |wire| == 1
    ensures DataOn(wire) == PayloadOf(wire[0])
  {
    assert |DataOn(wire[1..])| == 0;
  }

  lemma {:induction false} PutData(wire: seq<Frame>, f: Frame)
    ensures DataOn(wire + [f]) == DataOn(wire) + PayloadOf(f)
    decreases |wire|
  {
    var w := wire + [f];
    if |wire| == 0 {
      DataOnOne(w);
    } else {
      PutData(wire[1..], f);
      assert w[1..] == wire[1..] + [f] && w[0] == wire[0];
    }
  }

  lemma {:induction false} PutCredit(wire: seq<Frame>, f: Frame)
    ensures CreditOn(wire + [f]) == CreditOn(wire) + CreditOf(f)
    decreases |wire|
  {
    var w := wire + [f];
    if |wire| == 0 {
      assert w[0] == f && |w[1..]| == 0;
    } else {
      assert w[1..] == wire[1..] + [f] && w[0] == wire[0];
      PutCredit(wire[1..], f);
    }
  }

  lemma {:induction false} PutLast(wire: seq<Frame>, f: Frame)
    ensures DataOn(wire + [f]) == DataOn(wire) + PayloadOf(f)
    ensures CreditOn(wire + [f]) == CreditOn(wire) + CreditOf(f)
  {
    PutData(wire, f);
    PutCredit(wire, f);
  }

  // ---- Where the credit of one direction is ----

  /** At the sender: free credit, and payloads that have taken theirs. */
  function SendSide(p: Peer): int {
    p.tx.credit + Size(p.tx.taken)
  }

  /** At the receiver: queued frames (the partly read one in full), and credit on its way back. */
  function RecvSide(p: Peer): int {
    p.rx.queued + p.window.pending + p.window.held
  }

  /** Everything the window of the direction from `a` to `b` is made of. */
  function Outstanding(s: Net): int {
    SendSide(s.a) + |DataOn(s.ab)| + RecvSide(s.b) + CreditOn(s.ba)
  }

  predicate Live(s: Net) {
    && s.a.registered && !s.a.tx.closed && !s.a.down
    && s.b.registered && !s.b.done && !s.b.down
  }

  predicate TakenOk(cfg: Cfg, tx: Tx) {
    && (cfg.tcp ==> |tx.taken| <= 1)
    && forall i :: 0 <= i < |tx.taken| ==>
         if cfg.tcp then 1 <= |tx.taken[i]| <= MAX_DATA else |tx.taken[i]| <= MAX_DATAGRAM
  }

  predicate PeerOk(cfg: Cfg, p: Peer) {
    && RxOk(p.rx) && (!cfg.tcp ==> |p.rx.buf| == 0)
    && p.tx.credit >= 0 && TakenOk(cfg, p.tx)
    && (p.window.pending > 0 || p.window.held > 0 ==> p.window.sending)
  }

  predicate FrameOk(cfg: Cfg, f: Frame) {
    match f
    case Data(d) => if cfg.tcp then 1 <= |d| <= MAX_DATA else |d| <= MAX_DATAGRAM
    case WindowUpdate(c) => 1 <= c <= MAX_WINDOW_UPDATE
    case _ => true
  }

  predicate WireOk(cfg: Cfg, wire: seq<Frame>) {
    forall i :: 0 <= i < |wire| ==> FrameOk(cfg, wire[i])
  }

  /** The direction from `a` to `b`: never more than the window, and while both ends are open
      exactly the window. */
  predicate Conserved(cfg: Cfg, s: Net) {
    && Outstanding(s) <= cfg.Cap()
    && (Live(s) ==> Outstanding(s) == cfg.Cap())
  }

  predicate Inv(cfg: Cfg, s: Net) {
    && PeerOk(cfg, s.a) && PeerOk(cfg, s.b) && WireOk(cfg, s.ab) && WireOk(cfg, s.ba)
    && Conserved(cfg, s) && Conserved(cfg, s.Swap())
  }

  // ---- One peer's action ----

  /** What one action may do to the credit at the peer that takes it. */
  predicate Moves(cfg: Cfg, p: Peer, e: Effect) {
    && PeerOk(cfg, e.peer)
    && (e.out.Some? ==> FrameOk(cfg, e.out.value))
    && (p.down ==> e.peer.down) && (p.done ==> e.peer.done) && (p.tx.closed ==> e.peer.tx.closed)
    && (e.peer.registered ==> p.registered)
    && var data := if e.out.Some? then |PayloadOf(e.out.value)| else 0;
       var credit := if e.out.Some? then CreditOf(e.out.value) else 0;
       && SendSide(e.peer) + data <= SendSide(p)
       && (!e.peer.down ==> SendSide(e.peer) + data == SendSide(p))
       && RecvSide(e.peer) + credit <= RecvSide(p)
       && (!e.peer.done && !e.peer.down ==> RecvSide(e.peer) + credit == RecvSide(p))
  }

  lemma {:induction false} ChargeMoves(cfg: Cfg, p: Peer, payload: Payload)
    requires cfg.flowControl && PeerOk(cfg, p) && |payload| <= p.tx.credit
    requires if cfg.tcp then |p.tx.taken| == 0 && 1 <= |payload| <= MAX_DATA else |payload| <= MAX_DATAGRAM
    ensures Moves(cfg, p, Quiet(p.(tx := Charge(cfg, p.tx, payload))))
  {
    FlattenSnoc(p.tx.taken, payload);
  }

  lemma {:induction false} TakeChunkMoves(cfg: Cfg, p: Peer)
    requires cfg.flowControl && PeerOk(cfg, p)
    ensures Moves(cfg, p, Quiet(TakeChunk(cfg, p)))
  {
    var n := ChunkSize(cfg, p.tx);
    if cfg.tcp && p.tx.writing && |p.tx.taken| == 0 && n > 0 {
      ChargeMoves(cfg, p, p.tx.rest[..n]);
      var q := p.(tx := Charge(cfg, p.tx, p.tx.rest[..n]));
      MovesThenSame(cfg, p, q, TakeChunk(cfg, p));
    } else {
      SameCreditMoves(cfg, p, Quiet(p));
    }
  }

  lemma {:induction false} MovesThenSame(cfg: Cfg, p: Peer, q: Peer, r: Peer)
    requires Moves(cfg, p, Quiet(q)) && SameCredit(q, r)
    ensures Moves(cfg, p, Quiet(r))
  {
  }

  lemma {:induction false} TakePacketMoves(cfg: Cfg, p: Peer, packet: Payload)
    requires cfg.flowControl && PeerOk(cfg, p)
    ensures Moves(cfg, p, Quiet(TakePacket(cfg, p, packet)))
  {
    if !cfg.tcp && |packet| <= MAX_DATAGRAM && CanTake(p.tx.credit, |packet|, true) {
      ChargeMoves(cfg, p, packet);
      MovesThenSame(cfg, p, p.(tx := Charge(cfg, p.tx, packet)), TakePacket(cfg, p, packet));
    } else {
      SameCreditMoves(cfg, p, Quiet(p));
    }
  }

  lemma {:induction false} SendPayloadMoves(cfg: Cfg, p: Peer, i: nat)
    requires cfg.flowControl && PeerOk(cfg, p)
    ensures Moves(cfg, p, SendPayload(p, i))
  {
    if i < |p.tx.taken| {
      FlattenRemove(p.tx.taken, i);
    }
  }

  lemma {:induction false} ReturnCreditMoves(cfg: Cfg, p: Peer, q: Peer, n: nat)
    requires cfg.flowControl && PeerOk(cfg, p) && RecvSide(p) <= cfg.Cap()
    requires PeerOk(cfg, q) && q.(rx := p.rx, past := p.past) == p && q.rx.queued + n == p.rx.queued
    ensures Moves(cfg, p, Quiet(ReturnCredit(cfg, q, n)))
  {
    if n > 0 && !p.done {
      assert p.window.pending + n < UINT32;
    }
  }

  lemma {:induction false} ReadTcpMoves(cfg: Cfg, p: Peer, room: nat)
    requires cfg.flowControl && cfg.tcp && PeerOk(cfg, p) && RecvSide(p) <= cfg.Cap()
    ensures Moves(cfg, p, Quiet(ReadTcp(cfg, p, room)))
  {
    ReadBytesOk(p.rx, room);
    var out := ReadBytes(p.rx, room);
    if out.ready {
      ReturnCreditMoves(cfg, p, Got(p, out.rx, out.data), out.released);
    }
  }

  lemma {:induction false} ReadUdpMoves(cfg: Cfg, p: Peer, room: nat)
    requires cfg.flowControl && !cfg.tcp && PeerOk(cfg, p) && RecvSide(p) <= cfg.Cap()
    ensures Moves(cfg, p, Quiet(ReadUdp(cfg, p, room)))
  {
    ReadPacketOk(p.rx);
    var out := ReadPacket(p.rx);
    if out.ready {
      ReturnCreditMoves(cfg, p, Got(p, out.rx, out.data), out.released);
      ReturnCreditMoves(cfg, p, p.(rx := out.rx), out.released);
    }
  }

  lemma {:induction false} FlushMoves(cfg: Cfg, p: Peer)
    requires cfg.flowControl && PeerOk(cfg, p) && RecvSide(p) <= cfg.Cap()
    ensures Moves(cfg, p, Quiet(TakePending(p)))
    ensures Moves(cfg, p, FlushHeld(p))
  {
  }

  lemma {:induction false} CloseReaderMoves(cfg: Cfg, p: Peer, discard: bool)
    requires cfg.flowControl && PeerOk(cfg, p) && p.done
    ensures Moves(cfg, p, Quiet(CloseReader(p, discard)))
  {
    CloseRxOk(p.rx, discard);
  }

  /** Nothing that counts as credit changes, and the stream only closes. */
  predicate SameCredit(p: Peer, q: Peer) {
    && q.rx == p.rx && q.window == p.window && q.tx.credit == p.tx.credit && q.tx.taken == p.tx.taken
    && (p.down ==> q.down) && (p.done ==> q.done) && (p.tx.closed ==> q.tx.closed)
    && (q.registered ==> p.registered)
  }

  lemma {:induction false} SameCreditMoves(cfg: Cfg, p: Peer, e: Effect)
    requires PeerOk(cfg, p) && SameCredit(p, e.peer) && (e.out.Some? ==> e.out.value.Close? || e.out.value.CloseWrite?)
    ensures Moves(cfg, p, e)
  {
  }

  /** The acts that take no credit, read nothing and send no payload and no credit. */
  predicate MovesNoCredit(act: Act) {
    match act
    case TakeCredit | TakeForDatagram(_) | SendTaken(_) => false
    case Read(_) | ReadDatagram(_) | FlushTake | FlushSend | CloseRead(_) => false
    case _ => true
  }

  lemma {:induction false} OtherMoves(cfg: Cfg, p: Peer, act: Act)
    requires PeerOk(cfg, p) && MovesNoCredit(act)
    ensures Moves(cfg, p, Local(cfg, p, act))
  {
    SameCreditMoves(cfg, p, Local(cfg, p, act));
  }

  lemma {:induction false} ReadMoves(cfg: Cfg, p: Peer, room: nat)
    requires cfg.flowControl && PeerOk(cfg, p) && RecvSide(p) <= cfg.Cap()
    ensures Moves(cfg, p, Local(cfg, p, Read(room))) && Moves(cfg, p, Local(cfg, p, ReadDatagram(room)))
  {
    if cfg.tcp {
      ReadTcpMoves(cfg, p, room);
    } else {
      ReadUdpMoves(cfg, p, room);
    }
  }

  lemma {:induction false} LocalMoves(cfg: Cfg, p: Peer, act: Act)
    requires cfg.flowControl && PeerOk(cfg, p) && RecvSide(p) <= cfg.Cap()
    ensures Moves(cfg, p, Local(cfg, p, act))
  {
    match act
    case TakeCredit => TakeChunkMoves(cfg, p);
    case TakeForDatagram(packet) => TakePacketMoves(cfg, p, packet);
    case SendTaken(i) => SendPayloadMoves(cfg, p, i);
    case Read(room) => ReadMoves(cfg, p, room);
    case ReadDatagram(room) => ReadMoves(cfg, p, room);
    case FlushTake => FlushMoves(cfg, p);
    case FlushSend => FlushMoves(cfg, p);
    case CloseRead(discard) =>
      if p.done {
        CloseReaderMoves(cfg, p, discard);
      }
    case _ => OtherMoves(cfg, p, act);
  }

  // ---- One frame arriving ----

  /** What the arrival of `f` may do to the credit at the peer that gets it. */
  predicate Absorbs(cfg: Cfg, p: Peer, f: Frame, q: Peer) {
    && PeerOk(cfg, q)
    && q.down == p.down && (p.done ==> q.done) && (p.tx.closed ==> q.tx.closed)
    && (q.registered ==> p.registered)
    && SendSide(q) <= SendSide(p) + CreditOf(f)
    && (q.registered && !q.tx.closed ==> SendSide(q) == SendSide(p) + CreditOf(f))
    && RecvSide(q) <= RecvSide(p) + |PayloadOf(f)|
    && (q.registered && !q.done ==> RecvSide(q) == RecvSide(p) + |PayloadOf(f)|)
  }

  lemma {:induction false} OnDataAbsorbs(cfg: Cfg, p: Peer, d: Payload, admits: bool)
    requires cfg.flowControl && PeerOk(cfg, p) && RecvSide(p) + |d| <= cfg.Cap()
    ensures Absorbs(cfg, p, Data(d), OnData(cfg, p, d, admits))
  {
    EnqueueOk(p.rx, d);
    assert p.window.pending + |d| < UINT32;
  }

  lemma {:induction false} OnFrameAbsorbs(cfg: Cfg, p: Peer, f: Frame, admits: bool)
    requires cfg.flowControl && PeerOk(cfg, p) && FrameOk(cfg, f)
    requires RecvSide(p) + |PayloadOf(f)| <= cfg.Cap() && SendSide(p) + CreditOf(f) <= cfg.Cap()
    ensures Absorbs(cfg, p, f, OnFrame(cfg, p, f, admits))
  {
    match f
    case Data(d) => OnDataAbsorbs(cfg, p, d, admits);
    case CloseWrite => CloseRxOk(p.rx, false);
    case _ =>
  }

  // ---- Every run ----

  lemma {:induction false} SidesNonnegative(cfg: Cfg, s: Net)
    requires PeerOk(cfg, s.a) && PeerOk(cfg, s.b)
    ensures SendSide(s.a) >= 0 && RecvSide(s.b) >= 0 && SendSide(s.b) >= 0 && RecvSide(s.a) >= 0
  {
  }

  lemma {:induction false} LocalKeeps(cfg: Cfg, s: Net, act: Act)
    requires cfg.flowControl && Inv(cfg, s) && !act.Deliver?
    ensures Inv(cfg, DoA(cfg, s, act))
  {
    LocalMoves(cfg, s.a, act);
    MovedKeeps(cfg, s, Local(cfg, s.a, act));
  }

  lemma {:induction false} PutTotals(cfg: Cfg, wire: seq<Frame>, out: Option<Frame>)
    requires WireOk(cfg, wire) && (out.Some? ==> FrameOk(cfg, out.value))
    ensures WireOk(cfg, Put(wire, out))
    ensures |DataOn(Put(wire, out))| == |DataOn(wire)| + (if out.Some? then |PayloadOf(out.value)| else 0)
    ensures CreditOn(Put(wire, out)) == CreditOn(wire) + (if out.Some? then CreditOf(out.value) else 0)
  {
    if out.Some? {
      PutLast(wire, out.value);
    }
  }

  lemma {:induction false} MovedKeeps(cfg: Cfg, s: Net, e: Effect)
    requires Inv(cfg, s) && Moves(cfg, s.a, e)
    ensures Inv(cfg, s.(a := e.peer, ab := Put(s.ab, e.out)))
  {
    SidesNonnegative(cfg, s);
    PutTotals(cfg, s.ab, e.out);
  }

  lemma {:induction false} DeliverKeeps(cfg: Cfg, s: Net, admits: bool)
    requires cfg.flowControl && Inv(cfg, s)
    ensures Inv(cfg, DoA(cfg, s, Deliver(admits)))
  {
    if |s.ba| > 0 && !s.a.down {
      SidesNonnegative(cfg, s);
      var f := s.ba[0];
      assert FrameOk(cfg, f);
      assert DataOn(s.ba) == PayloadOf(f) + DataOn(s.ba[1..]);
      assert CreditOn(s.ba) == CreditOf(f) + CreditOn(s.ba[1..]);
      OnFrameAbsorbs(cfg, s.a, f, admits);
    }
  }

  lemma {:induction false} StepKeeps(cfg: Cfg, s: Net, t: Turn)
    requires cfg.flowControl && Inv(cfg, s)
    ensures Inv(cfg, Do(cfg, s, t))
  {
    var n := if t.byA then s else s.Swap();
    assert n.Swap().Swap() == n;
    if t.act.Deliver? {
      DeliverKeeps(cfg, n, t.act.admits);
    } else {
      LocalKeeps(cfg, n, t.act);
    }
  }

  /** In every reachable state, in both directions, free credit, payloads taken or in flight,
      queued bytes and credit on its way back never exceed the window, and while both ends are
      open they are exactly the window. */
  lemma {:induction false} EveryRunConserves(cfg: Cfg, s: Net, turns: seq<Turn>)
    requires cfg.flowControl && Start(cfg, s)
    ensures Inv(cfg, Run(cfg, s, turns))
    decreases |turns|
  {
    if |turns| == 0 {
      assert Size(s.a.tx.taken) == 0 && Size(s.b.tx.taken) == 0;
    } else {
      EveryRunConserves(cfg, s, turns[..|turns| - 1]);
      StepKeeps(cfg, Run(cfg, s, turns[..|turns| - 1]), turns[|turns| - 1]);
    }
  }

  // ---- What follows for honest peers ----

  /** The byte limit of the stream never refuses a payload: an arriving DATA or DATAGRAM is
      queued exactly when the connection budget admits it, the read side is open and the frame
      limit is not reached. */
  lemma {:induction false} RefusedOnlyForFramesOrBudget(cfg: Cfg, start: Net, turns: seq<Turn>, admits: bool)
    requires cfg.flowControl && Start(cfg, start)
    requires var s := Run(cfg, start, turns); |s.ba| > 0 && s.ba[0].Data?
    ensures var s := Run(cfg, start, turns);
            var size := |s.ba[0].payload|;
            && size <= ByteLimit(true, cfg.tcp) - s.a.rx.queued
            && (Queues(cfg, s.a, size, admits)
                <==> admits && !s.a.rx.closed && s.a.rx.frames < FrameLimit(true, cfg.tcp))
  {
    EveryRunConserves(cfg, start, turns);
    var s := Run(cfg, start, turns);
    SidesNonnegative(cfg, s);
    assert DataOn(s.ba) == PayloadOf(s.ba[0]) + DataOn(s.ba[1..]);
  }

  /** Every WINDOW_UPDATE in flight lies in 1..MaxWindowUpdate, and an open sender that gets it
      gains exactly that credit: it is never taken for an inflated one. */
  lemma {:induction false} WindowUpdateAlwaysAccepted(cfg: Cfg, start: Net, turns: seq<Turn>, admits: bool)
    requires cfg.flowControl && Start(cfg, start)
    requires var s := Run(cfg, start, turns);
             |s.ba| > 0 && s.ba[0].WindowUpdate? && s.a.registered && !s.a.tx.closed
    ensures var s := Run(cfg, start, turns);
            var c := s.ba[0].credit;
            && 1 <= c <= MAX_WINDOW_UPDATE
            && OnFrame(cfg, s.a, s.ba[0], admits) == s.a.(tx := s.a.tx.(credit := s.a.tx.credit + c))
            && s.a.tx.credit + c <= cfg.Cap()
  {
    EveryRunConserves(cfg, start, turns);
    var s := Run(cfg, start, turns);
    SidesNonnegative(cfg, s);
    assert FrameOk(cfg, s.ba[0]);
    assert CreditOn(s.ba) == CreditOf(s.ba[0]) + CreditOn(s.ba[1..]);
  }

  /** windowPending, a uint32, never wraps: even returning everything queued stays in range. */
  lemma {:induction false} PendingNeverWraps(cfg: Cfg, start: Net, turns: seq<Turn>)
    requires cfg.flowControl && Start(cfg, start)
    ensures var b := Run(cfg, start, turns).b;
            0 <= b.rx.queued && b.window.pending + b.rx.queued + b.window.held <= cfg.Cap() < UINT32
  {
    EveryRunConserves(cfg, start, turns);
    SidesNonnegative(cfg, Run(cfg, start, turns));
  }

  /** Nothing taken, in flight, queued or on its way back. */
  predicate Quiescent(s: Net) {
    && |s.a.tx.taken| == 0 && |DataOn(s.ab)| == 0
    && s.b.rx.queued == 0 && s.b.window.pending == 0 && s.b.window.held == 0 && CreditOn(s.ba) == 0
  }

  /** At quiescence the sender is back at full credit. */
  lemma {:induction false} QuiescentSenderHasFullCredit(cfg: Cfg, start: Net, turns: seq<Turn>)
    requires cfg.flowControl && Start(cfg, start)
    requires Live(Run(cfg, start, turns)) && Quiescent(Run(cfg, start, turns))
    ensures Run(cfg, start, turns).a.tx.credit == cfg.Cap()
  {
    EveryRunConserves(cfg, start, turns);
  }

  // ---- Credit counts bytes only ----

  /** `a` writes one byte and `b` receives it, with all the budget in the world. */
  const OneByte: seq<Turn> :=
    [Turn(true, BeginWrite([0])), Turn(true, TakeCredit), Turn(true, SendTaken(0)), Turn(true, EndWrite),
     Turn(false, Deliver(true))]

  /** Both ends idle and open, `k` one-byte frames queued and unread at `b`. */
  predicate Backlog(cfg: Cfg, s: Net, k: nat) {
    && Live(s) && s.a.tx.credit == cfg.Cap() - k && TxFree(s.a.tx) && |s.a.tx.taken| == 0
    && |s.ab| == 0 && !s.b.rx.closed && s.b.rx.queued == k && s.b.rx.frames == k
  }

  /** The first four turns put the byte on the wire. */
  lemma {:induction false} OneByteLeaves(cfg: Cfg, s: Net, k: nat)
    requires cfg.tcp && cfg.flowControl && Backlog(cfg, s, k) && k <= TCP_FRAMES
    ensures var n := Do(cfg, Do(cfg, Do(cfg, Do(cfg, s, OneByte[0]), OneByte[1]), OneByte[2]), OneByte[3]);
            && n.ab == [Data([0])] && n.b == s.b && Live(n) && n.a.tx.credit == cfg.Cap() - k - 1
            && TxFree(n.a.tx) && |n.a.tx.taken| == 0
  {
    var s1 := Do(cfg, s, OneByte[0]);
    var s2 := Do(cfg, s1, OneByte[1]);
    assert ChunkSize(cfg, s1.a.tx) == 1 && s1.a.tx.rest[..1] == [0];
    assert s2.a.tx.taken == [[0]];
    var s3 := Do(cfg, s2, OneByte[2]);
    assert s3.ab == [Data([0])] && |s3.a.tx.taken| == 0;
  }

  lemma {:induction false} OneByteRound(cfg: Cfg, s: Net, k: nat)
    requires cfg.tcp && cfg.flowControl && Backlog(cfg, s, k) && k <= TCP_FRAMES
    ensures k < TCP_FRAMES ==> Backlog(cfg, Run(cfg, s, OneByte), k + 1)
    ensures k == TCP_FRAMES ==> Run(cfg, s, OneByte).b.done && Run(cfg, s, OneByte).b.past.lost
    ensures Run(cfg, s, OneByte).a.tx.credit == cfg.Cap() - k - 1
  {
    OneByteLeaves(cfg, s, k);
    Unroll(cfg, s);
  }

  lemma {:induction false} Unroll(cfg: Cfg, s: Net)
    ensures Run(cfg, s, OneByte) == Do(cfg, Do(cfg, Do(cfg, Do(cfg, Do(cfg, s, OneByte[0]), OneByte[1]), OneByte[2]),
                                               OneByte[3]), OneByte[4])
  {
    RunOne(cfg, s, OneByte[..4], OneByte[4]);
    RunOne(cfg, s, OneByte[..3], OneByte[3]);
    RunOne(cfg, s, OneByte[..2], OneByte[2]);
    RunOne(cfg, s, OneByte[..1], OneByte[1]);
    RunOne(cfg, s, OneByte[..0], OneByte[0]);
    assert OneByte == OneByte[..4] + [OneByte[4]] && OneByte[..4] == OneByte[..3] + [OneByte[3]]
        && OneByte[..3] == OneByte[..2] + [OneByte[2]] && OneByte[..2] == OneByte[..1] + [OneByte[1]]
        && OneByte[..1] == OneByte[..0] + [OneByte[0]];
  }

  lemma {:induction false} BacklogGrows(cfg: Cfg, start: Net, k: nat) returns (turns: seq<Turn>)
    requires cfg.tcp && cfg.flowControl && Start(cfg, start) && k <= TCP_FRAMES
    ensures Backlog(cfg, Run(cfg, start, turns), k)
    decreases k
  {
    if k == 0 {
      turns := [];
    } else {
      var shorter := BacklogGrows(cfg, start, k - 1);
      OneByteRound(cfg, Run(cfg, start, shorter), k - 1);
      RunConcat(cfg, start, shorter, OneByte);
      turns := shorter + OneByte;
    }
  }

  /** An honest sender within its credit can still have its stream aborted: 513 unread one-byte
      frames exceed the frame limit even when the connection budget refuses nothing. */
  lemma {:induction false} HonestStreamCanBeAborted(cfg: Cfg, start: Net) returns (turns: seq<Turn>)
    requires cfg.tcp && cfg.flowControl && Start(cfg, start)
    ensures Run(cfg, start, turns).b.done && Run(cfg, start, turns).b.past.lost
    ensures Run(cfg, start, turns).a.tx.credit > 0
  {
    var full := BacklogGrows(cfg, start, TCP_FRAMES);
    OneByteRound(cfg, Run(cfg, start, full), TCP_FRAMES);
    RunConcat(cfg, start, full, OneByte);
    turns := full + OneByte;
  }
}
