/** The objects of go/internal/tunnel/tunnel.go: a multiplexed connection and its streams. Each
    method is one section the source runs under a mutex and is proved to do what the functions of
    Receive and Fairness say. A method that would wait on a channel reports that it has to. */
module Tunnel {
  import opened Bytes
  import opened Receive
  import opened Fairness

  lemma {:induction false} OneLess<T>(m: map<nat, T>, id: nat)
    requires id in m
    ensures |m - {id}| == |m| - 1
  {
    assert (m - {id}).Keys == m.Keys - {id};
  }

  lemma {:induction false} OneMore<T>(m: map<nat, T>, id: nat, x: T)
    requires id !in m
    ensures |m[id := x]| == |m| + 1
  {
    assert m[id := x].Keys == m.Keys + {id};
  }

  lemma {:induction false} VictimIsThere(t: Table, requester: string, cutoff: int, choice: Choice)
    requires Policy(t, requester, cutoff, choice) && !choice.Refused?
    ensures choice.id in t
  {
  }

  class Conn {
    var streams: map<nat, Stream>
    var rxBytes: int
    var rxFrames: int
    var closed: bool
    const maxStreams: nat
    const halfClose: bool
    const flowControl: bool
    const rxByteLimit: int
    const rxFrameLimit: int

    constructor (maxStreams: nat, halfClose: bool, flowControl: bool)
      ensures streams == map[] && !closed
      ensures this.maxStreams == maxStreams && this.halfClose == halfClose && this.flowControl == flowControl
      ensures Counters() == Budget(0, 0, CONN_BYTES, CONN_FRAMES)
    {
      this.streams, this.rxBytes, this.rxFrames, this.closed := map[], 0, 0, false;
      this.maxStreams, this.halfClose, this.flowControl := maxStreams, halfClose, flowControl;
      this.rxByteLimit, this.rxFrameLimit := CONN_BYTES, CONN_FRAMES;
    }

    function Counters(): Budget
      reads this
    {
      Budget(rxBytes, rxFrames, rxByteLimit, rxFrameLimit)
    }

    method ReserveReceive(size: nat, streamBytes: int, streamFrames: int) returns (ok: bool)
      modifies `rxBytes, `rxFrames
      ensures ok == old(Counters()).Admits(size, streamBytes, streamFrames)
      ensures Counters() == if ok then old(Counters()).Reserve(size) else old(Counters())
    {
      if size > rxByteLimit - rxBytes || rxFrames >= rxFrameLimit {
        return false;
      }
      var bulkByteLimit := rxByteLimit - Min(RESERVE_BYTES, rxByteLimit);
      if streamBytes > SMALL_BYTES && size > bulkByteLimit - rxBytes {
        return false;
      }
      var bulkFrameLimit := rxFrameLimit - Min(RESERVE_FRAMES, rxFrameLimit);
      if streamFrames > SMALL_FRAMES && rxFrames >= bulkFrameLimit {
        return false;
      }
      rxBytes := rxBytes + size;
      rxFrames := rxFrames + 1;
      return true;
    }

    method ReleaseReceive(size: int, frames: int)
      modifies `rxBytes, `rxFrames
      ensures Counters() == old(Counters()).Release(size, frames)
    {
      rxBytes := rxBytes - size;
      rxFrames := rxFrames - frames;
    }

    method RemoveStream(id: nat)
      modifies `streams
      ensures streams == old(streams) - {id}
    {
      streams := streams - {id};
    }

    // ---- Admission at the stream limit ----

    /** The groups and activity times of the registered streams. */
    function Activity(): Table
      reads this, streams.Values
    {
      map id | id in streams :: Entry(streams[id].sourceGroup, streams[id].lastActivity)
    }

    /** insertStream. A full table takes a new stream only in exchange for a victim of the policy,
        and only for a locally opened stream; the victim is removed but not closed yet. */
    method InsertStream(s: Stream, evict: bool, cutoff: int) returns (ok: bool, choice: Choice)
      modifies `streams
      ensures ok <==> && s.id != 0 && s.id !in old(streams)
                      && (|old(streams)| < maxStreams || !choice.Refused?)
      ensures !ok ==> streams == old(streams)
      ensures ok && choice.Refused? ==> streams == old(streams)[s.id := s]
      ensures ok && !choice.Refused? ==>
                && evict && |old(streams)| >= maxStreams
                && Policy(old(Activity()), s.sourceGroup, cutoff, choice)
                && streams == (old(streams) - {choice.id})[s.id := s]
      ensures !ok && s.id != 0 && s.id !in old(streams) && evict ==>
                Policy(old(Activity()), s.sourceGroup, cutoff, Refused)
      ensures old(|streams| <= maxStreams) ==> |streams| <= maxStreams
    {
      choice := Refused;
      if s.id == 0 || s.id in streams {
        return false, Refused;
      }
      if |streams| >= maxStreams {
        if evict {
          choice := EvictionVictim(Activity(), s.sourceGroup, cutoff);
        }
        if choice.Refused? {
          return false, Refused;
        }
        VictimIsThere(Activity(), s.sourceGroup, cutoff, choice);
        OneLess(streams, choice.id);
        streams := streams - {choice.id};
      }
      OneMore(streams, s.id, s);
      streams := streams[s.id := s];
      return true, choice;
    }
  }

  datatype ReadResult = Bytes(data: Payload) | Wait | EndOfFile

  class Stream {
    const conn: Conn
    const id: nat
    const tcp: bool
    var sourceGroup: string
    var lastActivity: int
    var rxQueue: seq<Payload>
    var rxBuf: Payload
    var rxBufSize: nat
    var rxQueued: int
    var rxFrames: int
    var rxClosed: bool
    var txClosed: bool
    var done: bool
    var txCredit: int
    const txCreditCap: int
    var windowPending: nat
    var windowSending: bool

    constructor (conn: Conn, id: nat, tcp: bool, sourceGroup: string, now: int)
      ensures this.conn == conn && this.id == id && this.tcp == tcp && this.sourceGroup == sourceGroup
      ensures lastActivity == now && IsFresh(RxView()) && !txClosed && !done
      ensures txCredit == txCreditCap == if !conn.flowControl then 0 else if tcp then TCP_BYTES else UDP_BYTES
      ensures windowPending == 0 && !windowSending
    {
      this.conn, this.id, this.tcp, this.sourceGroup, this.lastActivity := conn, id, tcp, sourceGroup, now;
      this.rxQueue, this.rxBuf, this.rxBufSize := [], [], 0;
      this.rxQueued, this.rxFrames, this.rxClosed := 0, 0, false;
      this.txClosed, this.done := false, false;
      var credit := if !conn.flowControl then 0 else if tcp then TCP_BYTES else UDP_BYTES;
      this.txCredit, this.txCreditCap := credit, credit;
      this.windowPending, this.windowSending := 0, false;
    }

    function RxView(): Rx
      reads this
    {
      Rx(rxQueue, rxBuf, rxBufSize, rxQueued, rxFrames, rxClosed)
    }

    /** The window as the flow machine sees it; what the flusher holds is its own. */
    function WindowView(held: nat): Window
      reads this
    {
      Window(windowPending, windowSending, held)
    }

    method QueuePayload(payload: Payload, now: int) returns (ok: bool)
      modifies `rxQueue, `rxQueued, `rxFrames, `lastActivity, conn`rxBytes, conn`rxFrames
      ensures ok == (&& StreamAccepts(old(RxView()), |payload|, ByteLimit(conn.flowControl, tcp),
                                      FrameLimit(conn.flowControl, tcp))
                     && old(conn.Counters()).Admits(|payload|, old(rxQueued) + |payload|, old(rxFrames) + 1))
      ensures RxView() == if ok then Enqueue(old(RxView()), payload) else old(RxView())
      ensures conn.Counters() == if ok then old(conn.Counters()).Reserve(|payload|) else old(conn.Counters())
      ensures lastActivity == if ok then now else old(lastActivity)
    {
      if rxClosed || |payload| > ByteLimit(conn.flowControl, tcp) - rxQueued
        || rxFrames >= FrameLimit(conn.flowControl, tcp) {
        return false;
      }
      ok := conn.ReserveReceive(|payload|, rxQueued + |payload|, rxFrames + 1);
      if !ok {
        return;
      }
      rxQueue := rxQueue + [payload];
      rxQueued := rxQueued + |payload|;
      rxFrames := rxFrames + 1;
      lastActivity := now;
    }

    /** The inner loop of Read. */
    method NextFrame()
      modifies `rxQueue, `rxBuf, `rxBufSize, `rxFrames, conn`rxBytes, conn`rxFrames
      ensures RxView() == Advance(old(RxView())) && (|rxBuf| == 0 ==> |rxQueue| == 0)
      ensures conn.Counters() == old(conn.Counters()).Release(0, old(rxFrames) - rxFrames)
    {
      while |rxBuf| == 0 && |rxQueue| > 0
        invariant Advance(RxView()) == Advance(old(RxView()))
        invariant conn.Counters() == old(conn.Counters()).Release(0, old(rxFrames) - rxFrames)
        decreases |rxQueue|
      {
        rxBuf := rxQueue[0];
        rxBufSize := |rxBuf|;
        rxQueue := rxQueue[1..];
        if |rxBuf| == 0 {
          rxBufSize := 0;
          rxFrames := rxFrames - 1;
          conn.ReleaseReceive(0, 1);
        }
      }
    }

    /** Read: one pass; the caller waits for rxNotify and tries again on `Wait`. */
    method Read(room: nat) returns (r: ReadResult)
      modifies `rxQueue, `rxBuf, `rxBufSize, `rxQueued, `rxFrames, `windowPending, `windowSending
      modifies conn`rxBytes, conn`rxFrames
      ensures var out := ReadBytes(old(RxView()), room);
              && RxView() == out.rx
              && r == (if out.ready then Bytes(out.data) else if rxClosed then EndOfFile else Wait)
              && conn.Counters()
                 == old(conn.Counters()).Release(old(rxQueued) - out.rx.queued, old(rxFrames) - out.rx.frames)
              && WindowView(0) == (if conn.flowControl && out.released > 0 && !done
                                   then AddPending(old(WindowView(0)), out.released) else old(WindowView(0)))
    {
      NextFrame();
      if |rxBuf| == 0 {
        return if rxClosed then EndOfFile else Wait;
      }
      var n := Min(room, |rxBuf|);
      r := Bytes(rxBuf[..n]);
      rxBuf := rxBuf[n..];
      if |rxBuf| == 0 {
        var released := rxBufSize;
        rxBufSize := 0;
        rxQueued := rxQueued - released;
        rxFrames := rxFrames - 1;
        conn.ReleaseReceive(released, 1);
        ReturnCredit(released);
      }
    }

    /** ReadDatagram: one pass. A packet that does not fit is consumed all the same. */
    method ReadDatagram(room: nat) returns (r: ReadResult, short: bool)
      modifies `rxQueue, `rxQueued, `rxFrames, `windowPending, `windowSending, conn`rxBytes, conn`rxFrames
      ensures var out := ReadPacket(old(RxView()));
              && RxView() == out.rx
              && r == (if out.ready then Bytes(out.data) else if rxClosed then EndOfFile else Wait)
              && short == (out.ready && |out.data| > room)
              && conn.Counters()
                 == old(conn.Counters()).Release(old(rxQueued) - out.rx.queued, old(rxFrames) - out.rx.frames)
              && WindowView(0) == (if conn.flowControl && out.released > 0 && !done
                                   then AddPending(old(WindowView(0)), out.released) else old(WindowView(0)))
    {
      if |rxQueue| == 0 {
        return (if rxClosed then EndOfFile else Wait), false;
      }
      var payload := rxQueue[0];
      rxQueue := rxQueue[1..];
      rxQueued := rxQueued - |payload|;
      rxFrames := rxFrames - 1;
      conn.ReleaseReceive(|payload|, 1);
      ReturnCredit(|payload|);
      return Bytes(payload), |payload| > room;
    }

    method ReturnCredit(credit: nat)
      modifies `windowPending, `windowSending
      ensures WindowView(0) == if conn.flowControl && credit > 0 && !done
                               then AddPending(old(WindowView(0)), credit) else old(WindowView(0))
    {
      if !conn.flowControl || credit == 0 || done {
        return;
      }
      windowPending := (windowPending + credit) % UINT32;
      windowSending := true;
    }

    /** One turn of the flusher: the credit to put into a WINDOW_UPDATE, or zero to stop. */
    method TakePendingCredit() returns (credit: nat)
      modifies `windowPending, `windowSending
      ensures WindowView(credit) == TakeAllPending(old(WindowView(0))).(sending := old(windowSending) && credit != 0)
    {
      credit := windowPending;
      windowPending := 0;
      if credit == 0 {
        windowSending := false;
      }
    }

    /** takeSendCredit: one pass; `ok` is false when it has to wait. */
    method TakeSendCredit(want: nat, exact: bool) returns (ok: bool, n: int)
      modifies `txCredit
      ensures ok == CanTake(old(txCredit), want, exact)
      ensures ok ==> n == Min(want, old(txCredit)) && txCredit == old(txCredit) - n && (exact ==> n == want)
      ensures !ok ==> txCredit == old(txCredit)
    {
      if txCredit > 0 && (!exact || txCredit >= want) {
        n := Min(want, txCredit);
        txCredit := txCredit - n;
        return true, n;
      }
      return false, 0;
    }

    method AddSendCredit(credit: nat) returns (ok: bool)
      modifies `txCredit
      ensures ok == (txClosed || !Inflates(old(txCredit), txCreditCap, credit))
      ensures txCredit == if ok && !txClosed then old(txCredit) + credit else old(txCredit)
    {
      if txClosed {
        return true;
      }
      if credit > txCreditCap - txCredit {
        return false;
      }
      txCredit := txCredit + credit;
      return true;
    }

    method CloseRead(discard: bool)
      modifies `rxQueue, `rxBuf, `rxBufSize, `rxQueued, `rxFrames, `rxClosed, conn`rxBytes, conn`rxFrames
      ensures RxView() == CloseRx(old(RxView()), discard)
      ensures conn.Counters() == old(conn.Counters()).Release(old(rxQueued) - rxQueued, old(rxFrames) - rxFrames)
    {
      rxClosed := true;
      if discard && rxFrames > 0 {
        conn.ReleaseReceive(rxQueued, rxFrames);
        rxBuf, rxBufSize, rxQueue, rxQueued, rxFrames := [], 0, [], 0, 0;
      }
    }

    /** markClosed: the first caller wins; the stream never opens again. */
    method MarkClosed(discard: bool, remove: bool) returns (won: bool)
      modifies this, conn`streams, conn`rxBytes, conn`rxFrames
      ensures won == !old(done)
      ensures !won ==> unchanged(this) && unchanged(conn)
      ensures won ==> done && txClosed && RxView() == CloseRx(old(RxView()), discard)
      ensures won ==> conn.streams == if remove then old(conn.streams) - {id} else old(conn.streams)
      ensures won ==>
                conn.Counters() == old(conn.Counters()).Release(old(rxQueued) - rxQueued, old(rxFrames) - rxFrames)
      ensures txCredit == old(txCredit) && WindowView(0) == old(WindowView(0))
    {
      if done {
        return false;
      }
      if remove {
        conn.RemoveStream(id);
      }
      txClosed := true;
      done := true;
      CloseRead(discard);
      return true;
    }

    /** Close: the caller sends CLOSE exactly when it was the first to close. */
    method Close() returns (sendClose: bool)
      modifies this, conn`streams, conn`rxBytes, conn`rxFrames
      ensures sendClose == !old(done) && done && txClosed == (old(txClosed) || sendClose)
      ensures RxView() == CloseRx(old(RxView()), true)
      ensures conn.streams == old(conn.streams) - {id}
      ensures conn.Counters() == old(conn.Counters()).Release(old(rxQueued) - rxQueued, old(rxFrames) - rxFrames)
    {
      sendClose := MarkClosed(true, true);
      if !sendClose {
        conn.RemoveStream(id);
        CloseRead(true);
      }
    }
  }
}
