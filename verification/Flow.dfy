/** One stream between two honest peers (go/internal/tunnel/tunnel.go): both endpoints, the
    goroutines that act for them, and the frames in flight both ways.

    Every action is one section the source runs under a mutex, or one frame write. Writes block
    and goroutines are scheduled freely, so a run is any sequence of actions of either side; an
    action that is not enabled changes nothing. The connection-wide receive budget is an answer
    that comes with each delivery: any interference from other streams is allowed. */
module Flow {
  import opened Collections
  import opened Bytes
  import opened Receive

  const MAX_DATA := 16 * 1024
  const MAX_DATAGRAM := 65507
  const MAX_WINDOW_UPDATE := 4 * 1024 * 1024

  datatype Cfg = Cfg(tcp: bool, flowControl: bool, halfClose: bool) {
    /** txCreditCap, which is also the receiver's byte limit under flow control. */
    function Cap(): int {
      if tcp then TCP_BYTES else UDP_BYTES
    }
  }

  /** DATA (or DATAGRAM for a UDP stream), CLOSE_WRITE, CLOSE and WINDOW_UPDATE. */
  datatype Frame = Data(payload: Payload) | CloseWrite | Close | WindowUpdate(credit: nat)

  datatype Option<T> = None | Some(value: T)

  /** The sending side. `taken` holds payloads whose credit is taken and whose frame is not
      written yet. txMu is held by a Write (`writing`, with the rest of its buffer) or by a
      CloseWrite between its flag and its frame (`halfClosing`). */
  datatype Tx = Tx(closed: bool, fin: bool, credit: int, writing: bool, rest: Payload,
                   taken: seq<Payload>, halfClosing: bool, closeDue: bool)

  /** A write that is over: the buffer it was given and the number of bytes it reports as written.
      A datagram is listed when it has its credit. */
  datatype Wrote = Wrote(buffer: Payload, n: int)

  /** What happened so far: payloads framed, pieces handed to readers, whether the receive side
      dropped anything, whether the peer's CLOSE_WRITE or CLOSE arrived, and whether ours left; the
      writes that are over, and the buffer of the last Write. */
  datatype Past = Past(sent: seq<Payload>, got: seq<Payload>, lost: bool, ended: bool, endSent: bool,
                       writes: seq<Wrote>, buffer: Payload)

  /** `registered`: in the connection's stream table. `done`: doneCh is closed. `down`: the raw
      connection is closed, so frame writes fail and nothing more is read. */
  datatype Peer = Peer(registered: bool, done: bool, down: bool, rx: Rx, tx: Tx, window: Window, past: Past)

  datatype Act =
    | BeginWrite(buffer: Payload)
    | TakeCredit
    | TakeForDatagram(packet: Payload)
    | SendTaken(index: nat)
    | EndWrite
    | BeginCloseWrite
    | SendCloseWrite
    | Read(room: nat)
    | ReadDatagram(space: nat)
    | FlushTake
    | FlushSend
    | Deliver(admits: bool)
    | CloseStream
    | SendClose
    | CloseRead(discard: bool)
    | Unregister
    | CloseRaw

  datatype Effect = Effect(peer: Peer, out: Option<Frame>)

  function Quiet(p: Peer): Effect {
    Effect(p, None)
  }

  /** WriteFrame: on a dead connection the frame is gone. */
  function Emit(p: Peer, f: Frame): Effect {
    Effect(p, if p.down then None else Some(f))
  }

  // ---- Sending ----

  /** takeSendCredit for one chunk of a Write; `n` bytes of the buffer get credit. */
  function ChunkSize(cfg: Cfg, tx: Tx): int {
    var n := Min(|tx.rest|, MAX_DATA);
    if cfg.flowControl then Min(n, tx.credit) else n
  }

  function Charge(cfg: Cfg, tx: Tx, payload: Payload): Tx {
    tx.(credit := if cfg.flowControl then tx.credit - |payload| else tx.credit, taken := tx.taken + [payload])
  }

  function TakeChunk(cfg: Cfg, p: Peer): Peer {
    var n := ChunkSize(cfg, p.tx);
    if cfg.tcp && p.tx.writing && |p.tx.taken| == 0 && n > 0 then
      p.(tx := Charge(cfg, p.tx, p.tx.rest[..n]).(rest := p.tx.rest[n..]))
    else p
  }

  /** WriteDatagramContext takes credit without txMu and without looking at txClosed. */
  function TakePacket(cfg: Cfg, p: Peer, packet: Payload): Peer {
    if !cfg.tcp && |packet| <= MAX_DATAGRAM
       && (cfg.flowControl ==> CanTake(p.tx.credit, |packet|, true)) then
      p.(tx := Charge(cfg, p.tx, packet), past := p.past.(writes := p.past.writes + [Wrote(packet, |packet|)]))
    else p
  }

  /** Write returns, reporting `n` bytes as written. */
  function FinishWrite(p: Peer, n: int): Peer {
    p.(tx := p.tx.(writing := false), past := p.past.(writes := p.past.writes + [Wrote(p.past.buffer, n)]))
  }

  /** Write stops when its buffer is empty, when the write side is closed, or while it waits for credit. */
  predicate MayEnd(cfg: Cfg, tx: Tx) {
    tx.writing && |tx.taken| == 0 && (|tx.rest| == 0 || tx.closed || (cfg.flowControl && tx.credit <= 0))
  }

  /** The frame of a taken payload is written; if that fails, the Write returns without it. */
  function SendPayload(p: Peer, i: nat): Effect {
    if i < |p.tx.taken| then
      var d := p.tx.taken[i];
      var q := p.(tx := p.tx.(taken := p.tx.taken[..i] + p.tx.taken[i + 1..]));
      if !p.down then Emit(q.(past := q.past.(sent := q.past.sent + [d])), Data(d))
      else if p.tx.writing then Quiet(FinishWrite(q, |p.past.buffer| - |p.tx.rest| - |d|))
      else Quiet(q)
    else Quiet(p)
  }

  predicate TxFree(tx: Tx) {
    !tx.writing && !tx.halfClosing
  }

  function EndFrame(p: Peer, f: Frame): Effect {
    if p.down then Quiet(p) else Emit(p.(past := p.past.(endSent := true)), f)
  }

  // ---- Receiving ----

  function ReturnCredit(cfg: Cfg, p: Peer, n: nat): Peer {
    if !cfg.flowControl || n == 0 || p.done then p
    else p.(window := AddPending(p.window, n))
  }

  function Got(p: Peer, rx: Rx, data: Payload): Peer {
    p.(rx := rx, past := p.past.(got := p.past.got + [data]))
  }

  function ReadTcp(cfg: Cfg, p: Peer, room: nat): Peer {
    var out := ReadBytes(p.rx, room);
    if !out.ready then p.(rx := out.rx)
    else ReturnCredit(cfg, Got(p, out.rx, out.data), out.released)
  }

  function ReadUdp(cfg: Cfg, p: Peer, room: nat): Peer {
    var out := ReadPacket(p.rx);
    if !out.ready then p
    else ReturnCredit(cfg, if |out.data| <= room then Got(p, out.rx, out.data) else p.(rx := out.rx), out.released)
  }

  function TakePending(p: Peer): Peer {
    if p.window.sending && p.window.held == 0 then
      p.(window := TakeAllPending(p.window))
    else p
  }

  function FlushHeld(p: Peer): Effect {
    if p.window.held > 0 then Emit(p.(window := p.window.(held := 0)), WindowUpdate(p.window.held)) else Quiet(p)
  }

  // ---- Closing ----

  /** The body of closeOnce in markClosed(true, true), up to closing doneCh. */
  function MarkClosed(p: Peer): Peer {
    if p.done then p
    else p.(registered := false, done := true, tx := p.tx.(closed := true, closeDue := true))
  }

  function CloseReader(p: Peer, discard: bool): Peer {
    p.(rx := CloseRx(p.rx, discard), past := p.past.(lost := p.past.lost || (discard && p.rx.frames > 0)))
  }

  // ---- Frames coming in (Run) ----

  predicate Queues(cfg: Cfg, p: Peer, size: nat, admits: bool) {
    && admits
    && StreamAccepts(p.rx, size, ByteLimit(cfg.flowControl, cfg.tcp), FrameLimit(cfg.flowControl, cfg.tcp))
  }

  function OnData(cfg: Cfg, p: Peer, d: Payload, admits: bool): Peer {
    if p.registered && Queues(cfg, p, |d|, admits) then p.(rx := Enqueue(p.rx, d))
    else
      var q := p.(past := p.past.(lost := true));
      if !p.registered then q
      else if cfg.tcp then MarkClosed(q)
      else ReturnCredit(cfg, q, |d|)
  }

  function OnCredit(cfg: Cfg, p: Peer, c: nat): Peer {
    if !p.registered then p
    else if c == 0 || c > MAX_WINDOW_UPDATE then MarkClosed(p)
    else if p.tx.closed then p
    else if Inflates(p.tx.credit, cfg.Cap(), c) then MarkClosed(p)
    else p.(tx := p.tx.(credit := p.tx.credit + c))
  }

  function OnFrame(cfg: Cfg, p: Peer, f: Frame, admits: bool): Peer {
    match f
    case Data(d) => OnData(cfg, p, d, admits)
    case WindowUpdate(c) => OnCredit(cfg, p, c)
    case CloseWrite =>
      if p.registered then p.(rx := CloseRx(p.rx, false), past := p.past.(ended := true)) else p
    case Close =>
      if p.registered then p.(done := true, tx := p.tx.(closed := true), past := p.past.(ended := true)) else p
  }

  // ---- Steps ----

  /** What an action other than a delivery does to the peer that takes it. */
  function Local(cfg: Cfg, p: Peer, act: Act): Effect {
    match act
    case BeginWrite(buffer) =>
      Quiet(if cfg.tcp && TxFree(p.tx) && !p.tx.closed
            then p.(tx := p.tx.(writing := true, rest := buffer), past := p.past.(buffer := buffer)) else p)
    case TakeCredit => Quiet(TakeChunk(cfg, p))
    case TakeForDatagram(packet) => Quiet(TakePacket(cfg, p, packet))
    case SendTaken(i) => SendPayload(p, i)
    case EndWrite =>
      Quiet(if MayEnd(cfg, p.tx) then FinishWrite(p, |p.past.buffer| - |p.tx.rest|) else p)
    case BeginCloseWrite =>
      Quiet(if cfg.tcp && cfg.halfClose && TxFree(p.tx) && !p.done && !p.tx.fin
            then p.(tx := p.tx.(closed := true, fin := true, halfClosing := true)) else p)
    case SendCloseWrite =>
      if p.tx.halfClosing then EndFrame(p.(tx := p.tx.(halfClosing := false)), CloseWrite) else Quiet(p)
    case Read(room) => Quiet(if cfg.tcp then ReadTcp(cfg, p, room) else p)
    case ReadDatagram(room) => Quiet(if cfg.tcp then p else ReadUdp(cfg, p, room))
    case FlushTake => Quiet(TakePending(p))
    case FlushSend => FlushHeld(p)
    case Deliver(_) => Quiet(p)
    case CloseStream => Quiet(MarkClosed(p))
    case SendClose =>
      if p.tx.closeDue && TxFree(p.tx) then EndFrame(p.(tx := p.tx.(closeDue := false)), Close) else Quiet(p)
    case CloseRead(discard) => Quiet(if p.done then CloseReader(p, discard) else p)
    case Unregister => Quiet(p.(registered := false))
    case CloseRaw => Quiet(p.(down := true))
  }

  /** Both peers and the frames in flight from `a` to `b` and from `b` to `a`. */
  datatype Net = Net(a: Peer, b: Peer, ab: seq<Frame>, ba: seq<Frame>) {
    function Swap(): Net {
      Net(b, a, ba, ab)
    }
  }

  function Put(wire: seq<Frame>, out: Option<Frame>): seq<Frame> {
    if out.Some? then wire + [out.value] else wire
  }

  /** An action of `a`. */
  function DoA(cfg: Cfg, s: Net, act: Act): Net {
    if act.Deliver? then
      if |s.ba| == 0 || s.a.down then s
      else s.(a := OnFrame(cfg, s.a, s.ba[0], act.admits), ba := s.ba[1..])
    else
      var e := Local(cfg, s.a, act);
      s.(a := e.peer, ab := Put(s.ab, e.out))
  }

  datatype Turn = Turn(byA: bool, act: Act)

  function Do(cfg: Cfg, s: Net, t: Turn): Net {
    if t.byA then DoA(cfg, s, t.act) else DoA(cfg, s.Swap(), t.act).Swap()
  }

  function Run(cfg: Cfg, s: Net, turns: seq<Turn>): Net
    decreases |turns|
  {
    if |turns| == 0 then s else Do(cfg, Run(cfg, s, turns[..|turns| - 1]), turns[|turns| - 1])
  }

  /** A peer right after the stream was opened. */
  predicate FreshPeer(cfg: Cfg, p: Peer) {
    && p.registered && !p.done && !p.down && IsFresh(p.rx)
    && (cfg.flowControl ==> p.tx.credit == cfg.Cap()) && (!cfg.flowControl ==> p.tx.credit == 0)
    && !p.tx.closed && !p.tx.fin && !p.tx.writing && |p.tx.taken| == 0 && !p.tx.halfClosing && !p.tx.closeDue
    && p.window == Window(0, false, 0)
    && |p.past.sent| == 0 && |p.past.got| == 0 && !p.past.lost && !p.past.ended && !p.past.endSent
    && |p.past.writes| == 0
  }

  predicate Start(cfg: Cfg, s: Net) {
    FreshPeer(cfg, s.a) && FreshPeer(cfg, s.b) && |s.ab| == 0 && |s.ba| == 0
  }

  lemma {:induction false} RunOne(cfg: Cfg, s: Net, turns: seq<Turn>, t: Turn)
    ensures Run(cfg, s, turns + [t]) == Do(cfg, Run(cfg, s, turns), t)
  {
    assert (turns + [t])[..|turns|] == turns;
  }

  lemma {:induction false} RunConcat(cfg: Cfg, s: Net, first: seq<Turn>, second: seq<Turn>)
    ensures Run(cfg, s, first + second) == Run(cfg, Run(cfg, s, first), second)
    decreases |second|
  {
    if |second| == 0 {
      assert first + second == first;
    } else {
      var init, last := second[..|second| - 1], second[|second| - 1];
      RunConcat(cfg, s, first, init);
      RunOne(cfg, s, first + init, last);
      RunOne(cfg, Run(cfg, s, first), init, last);
      LastOfConcat(first, second, init, last);
    }
  }

  lemma {:induction false} RunSingle(cfg: Cfg, s: Net, t: Turn)
    ensures Run(cfg, s, [t]) == Do(cfg, s, t)
  {
    RunOne(cfg, s, [t][..0], t);
    assert [t][..0] + [t] == [t];
  }

  lemma {:induction false} RunTwo(cfg: Cfg, s: Net, t: Turn, u: Turn)
    ensures Run(cfg, s, [t, u]) == Do(cfg, Do(cfg, s, t), u)
  {
    RunSingle(cfg, s, t);
    RunOne(cfg, s, [t], u);
    assert [t] + [u] == [t, u];
  }
}
