/** What a TCP stream frames is what its writers handed over: over every run of Flow, the bytes framed
    are the bytes that ended writes report as written, in order, followed by the part of the open
    Write's buffer that has gone out so far. */
module Writes {
  import opened Bytes
  import opened Receive
  import opened Flow
  import opened Credit
  import opened Fidelity

  // ---- What writers handed over ----

  predicate WroteOk(w: Wrote) {
    0 <= w.n <= |w.buffer|
  }

  function Reported(w: Wrote): Payload {
    if WroteOk(w) then w.buffer[..w.n] else []
  }

  /** The bytes that the writes so far reported as written, in order. */
  function Returned(ws: seq<Wrote>): Payload {
    if |ws| == 0 then [] else Returned(ws[..|ws| - 1]) + Reported(ws[|ws| - 1])
  }

  /** The same, with the whole buffer of the Write that is open. */
  function Handed(p: Peer): Payload {
    Returned(p.past.writes) + (if p.tx.writing then p.past.buffer else [])
  }

  /** How much of the open buffer is framed. */
  function Framed(p: Peer): int {
    |p.past.buffer| - |p.tx.rest| - Size(p.tx.taken)
  }

  /** The open Write's buffer is what is framed of it, what is taken and the rest, in this order. */
  predicate WriterOk(p: Peer) {
    && |p.tx.taken| <= 1 && (forall i :: 0 <= i < |p.past.writes| ==> WroteOk(p.past.writes[i]))
    && if p.tx.writing then
         && 0 <= Framed(p) && Written(p) == Returned(p.past.writes) + p.past.buffer[..Framed(p)]
         && p.past.buffer[Framed(p)..] == Flatten(p.tx.taken) + p.tx.rest
       else
         |p.tx.taken| == 0 && Written(p) == Returned(p.past.writes)
  }

  lemma {:induction false} ReturnedSnoc(ws: seq<Wrote>, w: Wrote)
    ensures Returned(ws + [w]) == Returned(ws) + Reported(w)
  {
    assert (ws + [w])[..|ws|] == ws;
  }

  /** A Write that returns `n` bytes, all of which are framed. */
  lemma {:induction false} FinishKeeps(p: Peer, q: Peer, n: int)
    requires |p.tx.taken| == 0 && 0 <= n <= |p.past.buffer| && q == FinishWrite(p, n)
    requires forall i :: 0 <= i < |p.past.writes| ==> WroteOk(p.past.writes[i])
    requires Written(p) == Returned(p.past.writes) + p.past.buffer[..n]
    ensures WriterOk(q)
  {
    ReturnedSnoc(p.past.writes, Wrote(p.past.buffer, n));
  }

  lemma {:induction false} TakenWhole(p: Peer)
    requires |p.tx.taken| == 1
    ensures Flatten(p.tx.taken) == p.tx.taken[0] && Size(p.tx.taken) == |p.tx.taken[0]|
  {
    assert |p.tx.taken[1..]| == 0;
    assert Flatten(p.tx.taken) == p.tx.taken[0] + Flatten(p.tx.taken[1..]);
  }

  lemma {:induction false} BeginKeeps(p: Peer, buffer: Payload, q: Peer)
    requires WriterOk(p) && !p.tx.writing
    requires q == p.(tx := p.tx.(writing := true, rest := buffer), past := p.past.(buffer := buffer))
    ensures WriterOk(q)
  {
    assert Size(q.tx.taken) == 0 && Framed(q) == 0;
    assert Returned(q.past.writes) + buffer[..0] == Returned(q.past.writes);
  }

  lemma {:induction false} EndKeeps(cfg: Cfg, p: Peer)
    requires WriterOk(p) && MayEnd(cfg, p.tx)
    ensures WriterOk(FinishWrite(p, |p.past.buffer| - |p.tx.rest|))
  {
    assert Size(p.tx.taken) == 0;
    FinishKeeps(p, FinishWrite(p, Framed(p)), Framed(p));
  }

  /** `d` is taken off the front of what is left. */
  predicate TakesFront(p: Peer, q: Peer, d: Payload) {
    && p.tx.writing && |p.tx.taken| == 0 && p.tx.rest == d + q.tx.rest && q.tx.taken == [d]
    && q.tx.writing && q.past == p.past
  }

  lemma {:induction false} TakingFrontKeeps(p: Peer, q: Peer, d: Payload)
    requires WriterOk(p) && TakesFront(p, q, d)
    ensures WriterOk(q)
  {
    TakenWhole(q);
    assert Size(p.tx.taken) == 0 && |Flatten(p.tx.taken)| == 0;
    assert Framed(q) == Framed(p);
    assert p.past.buffer[Framed(p)..] == p.tx.rest;
  }

  lemma {:induction false} ChunkIsFront(cfg: Cfg, p: Peer, n: int)
    requires cfg.tcp && p.tx.writing && |p.tx.taken| == 0 && n == ChunkSize(cfg, p.tx) > 0
    ensures TakesFront(p, TakeChunk(cfg, p), p.tx.rest[..n])
  {
    assert p.tx.taken + [p.tx.rest[..n]] == [p.tx.rest[..n]];
  }

  /** The next chunk is the front of what is left. */
  lemma {:induction false} TakeKeeps(cfg: Cfg, p: Peer)
    requires cfg.tcp && WriterOk(p)
    ensures WriterOk(TakeChunk(cfg, p))
  {
    var n := ChunkSize(cfg, p.tx);
    if p.tx.writing && |p.tx.taken| == 0 && n > 0 {
      ChunkIsFront(cfg, p, n);
      TakingFrontKeeps(p, TakeChunk(cfg, p), p.tx.rest[..n]);
    }
  }

  lemma {:induction false} SendKeeps(p: Peer, i: nat)
    requires WriterOk(p) && p.tx.writing && i < |p.tx.taken|
    ensures WriterOk(SendPayload(p, i).peer)
  {
    var q, d, m := SendPayload(p, i).peer, p.tx.taken[0], Framed(p);
    TakenWhole(p);
    assert |q.tx.taken| == 0 && Size(q.tx.taken) == 0;
    if p.down {
      var between := p.(tx := p.tx.(taken := p.tx.taken[..i] + p.tx.taken[i + 1..]));
      FinishKeeps(between, q, m);
    } else {
      FlattenSnoc(p.past.sent, d);
      assert p.past.buffer[m..][..|d|] == d && p.past.buffer[m..][|d|..] == p.tx.rest;
      assert p.past.buffer[..m + |d|] == p.past.buffer[..m] + d;
      assert p.past.buffer[m + |d|..] == p.tx.rest;
      assert Framed(q) == m + |d|;
      assert Returned(p.past.writes) + p.past.buffer[..m] + d == Returned(p.past.writes) + p.past.buffer[..m + |d|];
    }
  }

  /** What writing looks at stays as it was. */
  predicate SameWriter(p: Peer, q: Peer) {
    && q.tx.writing == p.tx.writing && q.tx.rest == p.tx.rest && q.tx.taken == p.tx.taken
    && q.past.sent == p.past.sent && q.past.writes == p.past.writes && q.past.buffer == p.past.buffer
  }

  lemma {:induction false} SameWriterKeeps(p: Peer, q: Peer)
    requires WriterOk(p) && SameWriter(p, q)
    ensures WriterOk(q)
  {
  }

  predicate Writes(act: Act) {
    act.BeginWrite? || act.TakeCredit? || act.TakeForDatagram? || act.SendTaken? || act.EndWrite?
  }

  lemma {:induction false} OthersDoNotWrite(cfg: Cfg, p: Peer, act: Act)
    requires !Writes(act)
    ensures SameWriter(p, Local(cfg, p, act).peer)
  {
  }

  lemma {:induction false} ArrivalsDoNotWrite(cfg: Cfg, p: Peer, f: Frame, admits: bool)
    ensures SameWriter(p, OnFrame(cfg, p, f, admits))
  {
  }

  lemma {:induction false} WritingKeeps(cfg: Cfg, p: Peer, act: Act)
    requires cfg.tcp && WriterOk(p) && Writes(act)
    ensures WriterOk(Local(cfg, p, act).peer)
  {
    if act.BeginWrite? {
      if TxFree(p.tx) && !p.tx.closed {
        BeginKeeps(p, act.buffer, Local(cfg, p, act).peer);
      }
    } else if act.TakeCredit? {
      TakeKeeps(cfg, p);
    } else if act.SendTaken? {
      if act.index < |p.tx.taken| {
        SendKeeps(p, act.index);
      }
    } else if act.EndWrite? {
      if MayEnd(cfg, p.tx) {
        EndKeeps(cfg, p);
      }
    }
  }

  lemma {:induction false} ActKeeps(cfg: Cfg, s: Net, act: Act)
    requires cfg.tcp && WriterOk(s.a)
    ensures WriterOk(DoA(cfg, s, act).a) && DoA(cfg, s, act).b == s.b
  {
    if act.Deliver? {
      if |s.ba| > 0 && !s.a.down {
        ArrivalsDoNotWrite(cfg, s.a, s.ba[0], act.admits);
        SameWriterKeeps(s.a, OnFrame(cfg, s.a, s.ba[0], act.admits));
      }
    } else if Writes(act) {
      WritingKeeps(cfg, s.a, act);
    } else {
      OthersDoNotWrite(cfg, s.a, act);
      SameWriterKeeps(s.a, Local(cfg, s.a, act).peer);
    }
  }

  /** In every run of a TCP stream, at both ends: the bytes framed are exactly the bytes that ended
      writes report as written, in order, and then the front of the open Write's buffer; the rest of
      that buffer is what is taken and what is left. */
  lemma {:induction false} EveryRunFramesWhatWasWritten(cfg: Cfg, start: Net, turns: seq<Turn>)
    requires cfg.tcp && Start(cfg, start)
    ensures WriterOk(Run(cfg, start, turns).a) && WriterOk(Run(cfg, start, turns).b)
    decreases |turns|
  {
    if |turns| > 0 {
      var s, t := Run(cfg, start, turns[..|turns| - 1]), turns[|turns| - 1];
      EveryRunFramesWhatWasWritten(cfg, start, turns[..|turns| - 1]);
      ActKeeps(cfg, if t.byA then s else s.Swap(), t.act);
    }
  }

  // ---- What the reader is promised ----

  lemma {:induction false} WrittenWasHanded(p: Peer)
    requires WriterOk(p)
    ensures Written(p) <= Handed(p)
  {
    if p.tx.writing {
      assert p.past.buffer == p.past.buffer[..Framed(p)] + p.past.buffer[Framed(p)..];
      assert Handed(p) == Written(p) + p.past.buffer[Framed(p)..];
    } else {
      assert Handed(p) == Written(p);
    }
  }

  lemma {:induction false} PrefixOfPrefix(a: Payload, b: Payload, c: Payload)
    requires a <= b <= c
    ensures a <= c
  {
  }

  /** The bytes returned by Read are, in every reachable state, a prefix of the bytes the peer's writers
      handed over; and no DATA follows CLOSE_WRITE or CLOSE on the wire. */
  lemma {:induction false} ReaderSeesAPrefix(cfg: Cfg, start: Net, turns: seq<Turn>)
    requires cfg.tcp && Start(cfg, start)
    ensures var s := Run(cfg, start, turns); Flatten(s.b.past.got) <= Handed(s.a) && Ordered(s.ab)
  {
    var s := Run(cfg, start, turns);
    ReaderSeesFrames(cfg, start, turns);
    EveryRunFramesWhatWasWritten(cfg, start, turns);
    WrittenWasHanded(s.a);
    PrefixOfPrefix(Flatten(s.b.past.got), Written(s.a), Handed(s.a));
  }

  /** End of file after the peer's CLOSE_WRITE or CLOSE, with nothing discarded on this side: the
      reader has exactly the bytes that the peer's writes reported as written, and no write that
      comes later reports any more. */
  lemma {:induction false} EndOfFileIsComplete(cfg: Cfg, start: Net, turns: seq<Turn>, later: seq<Turn>, room: nat)
    requires cfg.tcp && Start(cfg, start)
    requires var b := Run(cfg, start, turns).b;
             b.past.ended && !b.past.lost && !ReadBytes(b.rx, room).ready
    ensures var a := Run(cfg, start, turns + later).a;
            !a.tx.writing && Flatten(Run(cfg, start, turns).b.past.got) == Returned(a.past.writes)
  {
    FramesAreComplete(cfg, start, turns, later, room);
    EveryRunFramesWhatWasWritten(cfg, start, turns + later);
  }

  // ---- Writes make progress ----

  /** With the connection up and credit to spend, the next frame carries the front of the buffer: as
      much as the limit of a frame and the credit allow, and at least one byte. */
  lemma {:induction false} ChunkGoesOut(cfg: Cfg, s: Net)
    requires cfg.tcp && s.a.tx.writing && |s.a.tx.taken| == 0 && |s.a.tx.rest| > 0 && !s.a.down
    requires cfg.flowControl ==> s.a.tx.credit > 0
    ensures var n := Do(cfg, Do(cfg, s, Turn(true, TakeCredit)), Turn(true, SendTaken(0)));
            var size := |s.a.tx.rest| - |n.a.tx.rest|;
            && 0 < size <= MAX_DATA && n.ab == s.ab + [Data(s.a.tx.rest[..size])]
            && n.a.tx.rest == s.a.tx.rest[size..] && n.a.tx.writing && |n.a.tx.taken| == 0
            && (size == |s.a.tx.rest| || size == MAX_DATA || (cfg.flowControl && size == s.a.tx.credit))
  {
    var mid := Do(cfg, s, Turn(true, TakeCredit));
    assert |mid.a.tx.taken| == 1 && mid.ab == s.ab && !mid.a.down;
  }

  /** A Write reports less than its buffer only if the write side was closed, it ran out of credit or
      the connection was down. */
  lemma {:induction false} ShortWriteHasAReason(cfg: Cfg, p: Peer, act: Act)
    requires cfg.tcp && WriterOk(p) && p.tx.writing && !Local(cfg, p, act).peer.tx.writing
    ensures var q := Local(cfg, p, act).peer;
            && q.past.writes == p.past.writes + [Wrote(p.past.buffer, |Written(q)| - |Returned(p.past.writes)|)]
            && (q.past.writes[|p.past.writes|].n < |p.past.buffer| ==>
                  p.tx.closed || p.down || (cfg.flowControl && p.tx.credit <= 0))
  {
    if act.SendTaken? {
      TakenWhole(p);
    } else {
      assert Size(p.tx.taken) == 0;
    }
  }
}
