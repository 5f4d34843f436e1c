/** The receive side of one tunnel stream and the receive budget of its connection
    (go/internal/tunnel/tunnel.go).

    These functions are the specification of the classes in Tunnel.dfy; the state
    machines in Ledger.dfy and Flow.dfy are built from the same functions. */
module Receive {
  import opened Bytes

  const TCP_BYTES := 4 * 1024 * 1024
  const TCP_FRAMES := 512
  const LEGACY_TCP_BYTES := 56 * 1024 * 1024
  const LEGACY_TCP_FRAMES := 4096
  const UDP_BYTES := 512 * 1024
  const UDP_FRAMES := 32
  const CONN_BYTES := 64 * 1024 * 1024
  const CONN_FRAMES := 4096
  const RESERVE_BYTES := 4 * 1024 * 1024
  const RESERVE_FRAMES := 256
  const SMALL_BYTES := 64 * 1024
  const SMALL_FRAMES := 8

  /** The queue limits queueTCPPayload and queueUDPPayload pass down. */
  function ByteLimit(flowControl: bool, tcp: bool): int {
    if !tcp then UDP_BYTES else if flowControl then TCP_BYTES else LEGACY_TCP_BYTES
  }

  function FrameLimit(flowControl: bool, tcp: bool): int {
    if !tcp then UDP_FRAMES else if flowControl then TCP_FRAMES else LEGACY_TCP_FRAMES
  }

  /** Stream.rxQueue, rxBuf, rxBufSize, rxQueued, rxFrames and rxClosed. `buf` is the
      unread rest of the frame being read; its whole length stays in `queued` until the
      last byte is read. */
  datatype Rx = Rx(queue: seq<Payload>, buf: Payload, bufSize: nat, queued: int, frames: int, closed: bool)

  /** The receive state newStream leaves behind. */
  predicate IsFresh(rx: Rx) {
    |rx.queue| == 0 && |rx.buf| == 0 && rx.bufSize == 0 && rx.queued == 0 && rx.frames == 0 && !rx.closed
  }

  predicate RxOk(rx: Rx) {
    && |rx.buf| <= rx.bufSize
    && (|rx.buf| == 0 ==> rx.bufSize == 0)
    && rx.queued == rx.bufSize + Size(rx.queue)
    && rx.frames == |rx.queue| + (if |rx.buf| == 0 then 0 else 1)
  }

  /** The bytes a reader has yet to see. */
  function Unread(rx: Rx): Payload {
    rx.buf + Flatten(rx.queue)
  }

  /** The tests of queuePayload that look at the stream alone. */
  predicate StreamAccepts(rx: Rx, size: nat, byteLimit: int, frameLimit: int) {
    !rx.closed && size <= byteLimit - rx.queued && rx.frames < frameLimit
  }

  function Enqueue(rx: Rx, p: Payload): Rx {
    rx.(queue := rx.queue + [p], queued := rx.queued + |p|, frames := rx.frames + 1)
  }

  /** The inner loop of Read: move to the next nonempty frame, dropping empty ones. */
  function Advance(rx: Rx): Rx
    decreases |rx.queue|
  {
    if |rx.buf| > 0 || |rx.queue| == 0 then rx
    else if |rx.queue[0]| == 0 then
      Advance(rx.(queue := rx.queue[1..], bufSize := 0, frames := rx.frames - 1))
    else
      rx.(queue := rx.queue[1..], buf := rx.queue[0], bufSize := |rx.queue[0]|)
  }

  /** What one pass of Read or ReadDatagram does: the new state, the bytes handed over and
      the size of the frame that was completed by it (its budget and its credit). `ready` is
      false when the caller has to wait or gets end of file. */
  datatype ReadOut = ReadOut(rx: Rx, ready: bool, data: Payload, released: nat)

  function ReadBytes(rx: Rx, room: nat): ReadOut {
    var r := Advance(rx);
    if |r.buf| == 0 then ReadOut(r, false, r.buf, 0)
    else if room < |r.buf| then ReadOut(r.(buf := r.buf[room..]), true, r.buf[..room], 0)
    else
      ReadOut(r.(buf := r.buf[..0], bufSize := 0, queued := r.queued - r.bufSize, frames := r.frames - 1),
              true, r.buf, r.bufSize)
  }

  function ReadPacket(rx: Rx): ReadOut {
    if |rx.queue| == 0 then ReadOut(rx, false, rx.buf[..0], 0)
    else
      var p := rx.queue[0];
      ReadOut(rx.(queue := rx.queue[1..], queued := rx.queued - |p|, frames := rx.frames - 1),
              true, p, |p|)
  }

  /** closeRead. */
  function CloseRx(rx: Rx, discard: bool): Rx {
    if discard && rx.frames > 0 then Rx(rx.queue[..0], rx.buf[..0], 0, 0, 0, true) else rx.(closed := true)
  }

  lemma {:induction false} EnqueueOk(rx: Rx, p: Payload)
    requires RxOk(rx)
    ensures RxOk(Enqueue(rx, p))
    ensures Unread(Enqueue(rx, p)) == Unread(rx) + p
  {
    FlattenSnoc(rx.queue, p);
    assert rx.buf + (Flatten(rx.queue) + p) == (rx.buf + Flatten(rx.queue)) + p;
  }

  lemma {:induction false} AdvanceOk(rx: Rx)
    requires RxOk(rx)
    ensures var r := Advance(rx);
            && RxOk(r) && r.queued == rx.queued && r.frames <= rx.frames && r.closed == rx.closed
            && Unread(r) == Unread(rx)
            && (|r.buf| == 0 ==> |r.queue| == 0)
    decreases |rx.queue|
  {
    if |rx.buf| == 0 && |rx.queue| > 0 {
      if |rx.queue[0]| == 0 {
        AdvanceOk(rx.(queue := rx.queue[1..], bufSize := 0, frames := rx.frames - 1));
      }
    }
  }

  /** Reading hands over the next unread bytes and nothing else; the stream's byte count falls
      by exactly the size of the frame completed. */
  lemma {:induction false} ReadBytesOk(rx: Rx, room: nat)
    requires RxOk(rx)
    ensures var out := ReadBytes(rx, room);
            && RxOk(out.rx) && out.rx.closed == rx.closed
            && out.data + Unread(out.rx) == Unread(rx)
            && out.rx.queued == rx.queued - out.released
            && out.rx.frames <= rx.frames
            && (!out.ready <==> |Unread(rx)| == 0)
            && (out.ready && room > 0 ==> |out.data| > 0)
            && |out.data| <= room
  {
    AdvanceOk(rx);
    var r := Advance(rx);
    assert Unread(r) == r.buf + Flatten(r.queue);
    if |r.buf| > 0 && room < |r.buf| {
      assert r.buf == r.buf[..room] + r.buf[room..];
    }
  }

  lemma {:induction false} ReadPacketOk(rx: Rx)
    requires RxOk(rx) && |rx.buf| == 0
    ensures RxOk(ReadPacket(rx).rx)
    ensures |ReadPacket(rx).rx.buf| == 0
    ensures ReadPacket(rx).rx.queued == rx.queued - ReadPacket(rx).released
    ensures |rx.queue| > 0 ==> Flatten(rx.queue) == rx.queue[0] + Flatten(rx.queue[1..])
  {
    if |rx.queue| == 0 {
      return;
    }
    assert Flatten(rx.queue) == rx.queue[0] + Flatten(rx.queue[1..]);
  }

  lemma {:induction false} CloseRxOk(rx: Rx, discard: bool)
    requires RxOk(rx)
    ensures RxOk(CloseRx(rx, discard)) && CloseRx(rx, discard).closed
    ensures discard ==> |Unread(CloseRx(rx, discard))| == 0 && CloseRx(rx, discard).queued == 0
                        && CloseRx(rx, discard).frames == 0
    ensures !discard ==> Unread(CloseRx(rx, discard)) == Unread(rx)
  {
  }

  const UINT32 := 0x1_0000_0000

  /** windowPending, windowSending and the credit the flusher goroutine is about to send. */
  datatype Window = Window(pending: nat, sending: bool, held: nat)

  /** returnCredit on an open stream: the flusher runs from now on. windowPending is a uint32. */
  function AddPending(w: Window, n: nat): Window {
    w.(pending := (w.pending + n) % UINT32, sending := true)
  }

  /** One turn of flushWindowUpdates: take everything, or stop. */
  function TakeAllPending(w: Window): Window {
    Window(0, w.pending != 0, w.pending)
  }

  /** takeSendCredit: whether it goes ahead, and how much it then takes. */
  predicate CanTake(credit: int, want: nat, exact: bool) {
    credit > 0 && (exact ==> credit >= want)
  }

  /** addSendCredit refuses to lift credit above the initial window. */
  predicate Inflates(credit: int, cap: int, more: nat) {
    more > cap - credit
  }

  /** Conn.rxBytes, rxFrames, rxByteLimit and rxFrameLimit. */
  datatype Budget = Budget(bytes: int, frames: int, byteLimit: int, frameLimit: int) {
    function BulkBytes(): int {
      byteLimit - Min(RESERVE_BYTES, byteLimit)
    }

    function BulkFrames(): int {
      frameLimit - Min(RESERVE_FRAMES, frameLimit)
    }

    /** reserveReceive's decision; `streamBytes` and `streamFrames` include the new payload. */
    predicate Admits(size: nat, streamBytes: int, streamFrames: int) {
      && size <= byteLimit - bytes
      && frames < frameLimit
      && (streamBytes > SMALL_BYTES ==> size <= BulkBytes() - bytes)
      && (streamFrames > SMALL_FRAMES ==> frames < BulkFrames())
    }

    function Reserve(size: nat): Budget {
      this.(bytes := bytes + size, frames := frames + 1)
    }

    function Release(size: int, count: int): Budget {
      this.(bytes := bytes - size, frames := frames - count)
    }
  }
}
