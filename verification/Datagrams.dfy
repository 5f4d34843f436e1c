/** What a reader of a UDP stream sees, over every run of Flow: whole packets of the peer, in the
    order they were written, none twice. Packets may be missing. */
module Datagrams {
  import opened Bytes
  import opened Receive
  import opened Flow

  /** `at` places the packets `xs`, in order, inside `ys`. */
  predicate Places(at: seq<nat>, xs: seq<Payload>, ys: seq<Payload>) {
    && |at| == |xs|
    && (forall k :: 0 <= k < |at| ==> at[k] < |ys| && xs[k] == ys[at[k]])
    && (forall k, l :: 0 <= k < l < |at| ==> at[k] < at[l])
  }

  ghost predicate Subsequence(xs: seq<Payload>, ys: seq<Payload>) {
    exists at: seq<nat> :: Places(at, xs, ys)
  }

  function PacketsOf(f: Frame): seq<Payload> {
    if f.Data? then [f.payload] else []
  }

  function Packets(wire: seq<Frame>): seq<Payload> {
    if |wire| == 0 then [] else PacketsOf(wire[0]) + Packets(wire[1..])
  }

  lemma {:induction false} PutPacket(wire: seq<Frame>, f: Frame)
    ensures Packets(wire + [f]) == Packets(wire) + PacketsOf(f)
    decreases |wire|
  {
    var w := wire + [f];
    if |wire| == 0 {
      assert w[0] == f && |w[1..]| == 0;
      assert Packets(w) == PacketsOf(f) + Packets(w[1..]);
    } else {
      assert w[1..] == wire[1..] + [f] && w[0] == wire[0];
      PutPacket(wire[1..], f);
      assert Packets(w) == PacketsOf(wire[0]) + (Packets(wire[1..]) + PacketsOf(f));
    }
  }

  lemma {:induction false} Extend(xs: seq<Payload>, ys: seq<Payload>, d: Payload)
    requires Subsequence(xs, ys)
    ensures Subsequence(xs + [d], ys + [d])
  {
    var at: seq<nat> :| Places(at, xs, ys);
    assert Places(at + [|ys|], xs + [d], ys + [d]);
  }

  lemma {:induction false} Drop(before: seq<Payload>, dropped: seq<Payload>, after: seq<Payload>, ys: seq<Payload>)
    requires Subsequence(before + dropped + after, ys)
    ensures Subsequence(before + after, ys)
  {
    var xs := before + dropped + after;
    var at: seq<nat> :| Places(at, xs, ys);
    var i, j := |before|, |before| + |dropped|;
    var at' := at[..i] + at[j..];
    assert forall k :: 0 <= k < |at'| ==> at'[k] == at[if k < i then k else k + j - i];
    assert forall k :: 0 <= k < |before + after| ==> (before + after)[k] == xs[if k < i then k else k + j - i];
    assert Places(at', before + after, ys);
  }

  /** Packets read by `b`, waiting at `b`, and on the wire to `b`. */
  function Trail(b: Peer, ab: seq<Frame>): seq<Payload> {
    b.past.got + b.rx.queue + Packets(ab)
  }

  ghost predicate InOrder(s: Net) {
    Subsequence(Trail(s.b, s.ab), s.a.past.sent)
  }

  ghost predicate Inv(s: Net) {
    InOrder(s) && InOrder(s.Swap())
  }

  /** What leaves `a` is what it records as sent. */
  lemma {:induction false} SenderKeeps(b: Peer, wire: seq<Frame>, sent: seq<Payload>, f: Frame)
    requires Subsequence(Trail(b, wire), sent)
    ensures Subsequence(Trail(b, wire + [f]), sent + PacketsOf(f))
  {
    PutPacket(wire, f);
    var seen := b.past.got + b.rx.queue;
    assert seen + (Packets(wire) + PacketsOf(f)) == Trail(b, wire) + PacketsOf(f);
    if f.Data? {
      Extend(Trail(b, wire), sent, f.payload);
    } else {
      assert Trail(b, wire) + PacketsOf(f) == Trail(b, wire) && sent + PacketsOf(f) == sent;
    }
  }

  lemma {:induction false} SentIsRecorded(cfg: Cfg, p: Peer, act: Act)
    requires !act.Deliver?
    ensures var e := Local(cfg, p, act);
            e.peer.past.sent == if e.out.Some? then p.past.sent + PacketsOf(e.out.value) else p.past.sent
  {
  }

  /** How an action of `a` changes what `a` sent and what it received. */
  lemma {:induction false} LocalKeeps(cfg: Cfg, s: Net, act: Act)
    requires !cfg.tcp && Inv(s) && !act.Deliver?
    ensures Inv(DoA(cfg, s, act))
  {
    var e := Local(cfg, s.a, act);
    SentIsRecorded(cfg, s.a, act);
    if e.out.Some? {
      SenderKeeps(s.b, s.ab, s.a.past.sent, e.out.value);
    }
    ReceiverKeeps(cfg, s.a, s.ba, s.b.past.sent, act);
  }

  lemma {:induction false} ReadKeeps(cfg: Cfg, p: Peer, wire: seq<Frame>, sent: seq<Payload>, room: nat)
    requires !cfg.tcp && Subsequence(Trail(p, wire), sent)
    ensures Subsequence(Trail(ReadUdp(cfg, p, room), wire), sent)
  {
    if |p.rx.queue| > 0 {
      var q, rest := ReadUdp(cfg, p, room), Packets(wire);
      var d, queue := p.rx.queue[0], p.rx.queue[1..];
      assert p.past.got + p.rx.queue + rest == p.past.got + [d] + (queue + rest);
      if |d| > room {
        Drop(p.past.got, [d], queue + rest, sent);
        assert p.past.got + (queue + rest) == Trail(q, wire);
      } else {
        assert (p.past.got + [d]) + queue + rest == Trail(q, wire);
        assert Trail(q, wire) == Trail(p, wire);
      }
    }
  }

  lemma {:induction false} CloseKeeps(p: Peer, wire: seq<Frame>, sent: seq<Payload>, discard: bool)
    requires Subsequence(Trail(p, wire), sent)
    ensures Subsequence(Trail(CloseReader(p, discard), wire), sent)
  {
    var q, rest := CloseReader(p, discard), Packets(wire);
    if discard && p.rx.frames > 0 {
      Drop(p.past.got, p.rx.queue, rest, sent);
      assert p.past.got + rest == Trail(q, wire);
    }
  }

  /** An action of the receiver itself loses packets at most. */
  lemma {:induction false} ReceiverKeeps(cfg: Cfg, p: Peer, wire: seq<Frame>, sent: seq<Payload>, act: Act)
    requires !cfg.tcp && Subsequence(Trail(p, wire), sent) && !act.Deliver?
    ensures Subsequence(Trail(Local(cfg, p, act).peer, wire), sent)
  {
    if act.ReadDatagram? {
      ReadKeeps(cfg, p, wire, sent, act.space);
    } else if act.CloseRead? {
      CloseKeeps(p, wire, sent, act.discard);
    } else {
      var q := Local(cfg, p, act).peer;
      assert q.past.got == p.past.got && q.rx.queue == p.rx.queue;
    }
  }

  lemma {:induction false} DeliverKeeps(cfg: Cfg, s: Net, admits: bool)
    requires !cfg.tcp && Inv(s)
    ensures Inv(DoA(cfg, s, Deliver(admits)))
  {
    if |s.ba| > 0 && !s.a.down {
      var f, rest, p := s.ba[0], s.ba[1..], s.a;
      var q := OnFrame(cfg, p, f, admits);
      if f.Data? {
        var d, seen := f.payload, p.past.got + p.rx.queue;
        assert Trail(p, s.ba) == seen + [d] + Packets(rest);
        if p.registered && Queues(cfg, p, |d|, admits) {
          assert p.past.got + (p.rx.queue + [d]) + Packets(rest) == seen + [d] + Packets(rest);
        } else {
          Drop(seen, [d], Packets(rest), s.b.past.sent);
        }
      } else {
        assert Packets(s.ba) == Packets(rest);
      }
    }
  }

  lemma {:induction false} EveryRunInOrder(cfg: Cfg, start: Net, turns: seq<Turn>)
    requires !cfg.tcp && Start(cfg, start)
    ensures Inv(Run(cfg, start, turns))
    decreases |turns|
  {
    if |turns| == 0 {
      assert Places([], Trail(start.b, start.ab), start.a.past.sent);
      assert Places([], Trail(start.a, start.ba), start.b.past.sent);
    } else {
      var s, t := Run(cfg, start, turns[..|turns| - 1]), turns[|turns| - 1];
      EveryRunInOrder(cfg, start, turns[..|turns| - 1]);
      var n := if t.byA then s else s.Swap();
      if t.act.Deliver? {
        DeliverKeeps(cfg, n, t.act.admits);
      } else {
        LocalKeeps(cfg, n, t.act);
      }
    }
  }

  /** The packets ReadDatagram returned are, in every reachable state, a subsequence of the packets
      the peer framed: boundaries kept, nothing reordered, nothing duplicated. */
  lemma {:induction false} ReaderSeesPacketsInOrder(cfg: Cfg, start: Net, turns: seq<Turn>)
    requires !cfg.tcp && Start(cfg, start)
    ensures var s := Run(cfg, start, turns); Subsequence(s.b.past.got, s.a.past.sent)
  {
    EveryRunInOrder(cfg, start, turns);
    var s := Run(cfg, start, turns);
    var got, later := s.b.past.got, s.b.rx.queue + Packets(s.ab);
    assert Trail(s.b, s.ab) == got + later + [];
    Drop(got, later, [], s.a.past.sent);
    assert got + [] == got;
  }

  /** A packet that fits the reader's buffer is handed over whole, and the one behind it comes next. */
  lemma {:induction false} FittingPacketIsHandedOver(cfg: Cfg, p: Peer, room: nat)
    requires |p.rx.queue| > 0
    ensures var q := ReadUdp(cfg, p, room);
            && q.rx.queue == p.rx.queue[1..]
            && q.past.got == p.past.got + (if |p.rx.queue[0]| <= room then [p.rx.queue[0]] else [])
  {
  }

  // ---- Only packets that were written are framed ----

  function Buffers(ws: seq<Wrote>): seq<Payload> {
    seq(|ws|, i requires 0 <= i < |ws| => ws[i].buffer)
  }

  /** Packets framed and packets that have their credit are packets that were written, each at most as
      often as it was written; and while the connection is up there are no others. */
  predicate OnlyWritten(p: Peer) {
    && multiset(p.past.sent) + multiset(p.tx.taken) <= multiset(Buffers(p.past.writes))
    && (!p.down ==> multiset(p.past.sent) + multiset(p.tx.taken) == multiset(Buffers(p.past.writes)))
    && !p.tx.writing
  }

  lemma {:induction false} TakingWritten(cfg: Cfg, p: Peer, packet: Payload)
    requires OnlyWritten(p)
    ensures OnlyWritten(TakePacket(cfg, p, packet))
  {
    var q := TakePacket(cfg, p, packet);
    if |q.past.writes| > |p.past.writes| {
      assert Buffers(q.past.writes) == Buffers(p.past.writes) + [packet];
    }
  }

  lemma {:induction false} SendingWritten(p: Peer, i: nat)
    requires OnlyWritten(p)
    ensures OnlyWritten(SendPayload(p, i).peer)
  {
    if i < |p.tx.taken| {
      var d, left := p.tx.taken[i], p.tx.taken[..i] + p.tx.taken[i + 1..];
      assert p.tx.taken == p.tx.taken[..i] + [d] + p.tx.taken[i + 1..];
      assert multiset(p.tx.taken) == multiset(left) + multiset{d};
    }
  }

  /** Writing has not moved, and the connection is not up again. */
  predicate SameWritten(p: Peer, q: Peer) {
    && q.past.writes == p.past.writes && q.past.sent == p.past.sent && q.tx.taken == p.tx.taken
    && q.tx.writing == p.tx.writing && (p.down ==> q.down)
  }

  lemma {:induction false} SameWrittenKeeps(p: Peer, q: Peer)
    requires OnlyWritten(p) && SameWritten(p, q)
    ensures OnlyWritten(q)
  {
  }

  lemma {:induction false} OthersAreSame(cfg: Cfg, p: Peer, act: Act)
    requires !cfg.tcp && !p.tx.writing && !act.TakeForDatagram? && !act.SendTaken?
    ensures SameWritten(p, Local(cfg, p, act).peer)
  {
  }

  lemma {:induction false} ArrivalIsSame(cfg: Cfg, p: Peer, f: Frame, admits: bool)
    ensures SameWritten(p, OnFrame(cfg, p, f, admits))
  {
  }

  lemma {:induction false} ActKeepsWritten(cfg: Cfg, s: Net, act: Act)
    requires !cfg.tcp && OnlyWritten(s.a)
    ensures OnlyWritten(DoA(cfg, s, act).a) && DoA(cfg, s, act).b == s.b
  {
    if act.Deliver? {
      if |s.ba| > 0 && !s.a.down {
        ArrivalIsSame(cfg, s.a, s.ba[0], act.admits);
        SameWrittenKeeps(s.a, OnFrame(cfg, s.a, s.ba[0], act.admits));
      }
    } else if act.TakeForDatagram? {
      TakingWritten(cfg, s.a, act.packet);
    } else if act.SendTaken? {
      SendingWritten(s.a, act.index);
    } else {
      OthersAreSame(cfg, s.a, act);
      SameWrittenKeeps(s.a, Local(cfg, s.a, act).peer);
    }
  }

  /** In every run of a UDP stream, at both ends. */
  lemma {:induction false} EveryRunFramesOnlyWritten(cfg: Cfg, start: Net, turns: seq<Turn>)
    requires !cfg.tcp && Start(cfg, start)
    ensures OnlyWritten(Run(cfg, start, turns).a) && OnlyWritten(Run(cfg, start, turns).b)
    decreases |turns|
  {
    if |turns| > 0 {
      var s, t := Run(cfg, start, turns[..|turns| - 1]), turns[|turns| - 1];
      EveryRunFramesOnlyWritten(cfg, start, turns[..|turns| - 1]);
      ActKeepsWritten(cfg, if t.byA then s else s.Swap(), t.act);
    }
  }
}
