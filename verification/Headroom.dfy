/** The two views of a connection put together: with flow control, and few enough streams holding
    unread bytes, the shared budget never refuses an honest payload for its bytes. */
module Headroom {
  import opened Bytes
  import opened Receive
  import opened Ledger
  import Flow
  import Credit

  // ---- No stream is above its own limit ----

  predicate BelowLimit(flowControl: bool, m: Member) {
    m.rx.queued <= ByteLimit(flowControl, m.tcp)
  }

  ghost predicate AllBelow(c: Conn) {
    forall id :: id in c.members ==> BelowLimit(c.flowControl, c.members[id])
  }

  /** One member changes and stays below. */
  lemma {:induction false} UpdateKeepsBelow(c: Conn, id: nat, m: Member, c': Conn)
    requires AllBelow(c) && c'.flowControl == c.flowControl && c'.members == c.members[id := m]
    requires BelowLimit(c.flowControl, m)
    ensures AllBelow(c')
  {
  }

  /** Giving memory back keeps a stream below its limit. */
  lemma {:induction false} GivingBackKeepsBelow(c: Conn, id: nat, m': Member, c': Conn)
    requires AllBelow(c) && id in c.members && c'.flowControl == c.flowControl && c'.members == c.members[id := m']
    requires GivesBack(c.members[id], m') && m'.tcp == c.members[id].tcp
    ensures AllBelow(c')
  {
    assert BelowLimit(c.flowControl, c.members[id]);
    UpdateKeepsBelow(c, id, m', c');
  }

  lemma {:induction false} ReadKeepsBelow(c: Conn, id: nat, room: nat)
    requires Inv(c) && AllBelow(c) && id in c.members && c.members[id].tcp
    ensures AllBelow(Do(c, Read(id, room)))
  {
    var m := c.members[id];
    ReadGivesBack(m, room);
    GivingBackKeepsBelow(c, id, m.(rx := ReadBytes(m.rx, room).rx), Do(c, Read(id, room)));
  }

  lemma {:induction false} ReadDatagramKeepsBelow(c: Conn, id: nat)
    requires Inv(c) && AllBelow(c) && id in c.members && !c.members[id].tcp
    ensures AllBelow(Do(c, ReadDatagram(id)))
  {
    var m := c.members[id];
    PacketGivesBack(m);
    GivingBackKeepsBelow(c, id, m.(rx := ReadPacket(m.rx).rx), Do(c, ReadDatagram(id)));
  }

  lemma {:induction false} CloseReadKeepsBelow(c: Conn, id: nat, discard: bool)
    requires Inv(c) && AllBelow(c) && id in c.members
    ensures AllBelow(Do(c, CloseRead(id, discard)))
  {
    var m := c.members[id];
    var m' := m.(rx := CloseRx(m.rx, discard), discarded := discard || m.discarded);
    CloseGivesBack(m, discard);
    ClosedMember(c, id, discard, m');
    GivingBackKeepsBelow(c, id, m', Do(c, CloseRead(id, discard)));
  }

  lemma {:induction false} StepKeepsBelow(c: Conn, act: Act)
    requires Inv(c) && AllBelow(c)
    ensures AllBelow(Do(c, act)) && Do(c, act).flowControl == c.flowControl
  {
    match act
    case Read(id, room) => if id in c.members && c.members[id].tcp { ReadKeepsBelow(c, id, room); }
    case ReadDatagram(id) => if id in c.members && !c.members[id].tcp { ReadDatagramKeepsBelow(c, id); }
    case CloseRead(id, discard) => if id in c.members { CloseReadKeepsBelow(c, id, discard); }
    case Queue(id, payload) =>
      if id in c.members && Queues(c, id, |payload|) {
        UpdateKeepsBelow(c, id, c.members[id].(rx := Enqueue(c.members[id].rx, payload)), Do(c, act));
      }
    case Open(id, tcp, rx) =>
      if id !in c.members && IsFresh(rx) {
        UpdateKeepsBelow(c, id, Member(tcp, rx, false), Do(c, act));
      }
  }

  lemma {:induction false} EveryRunStaysBelow(flowControl: bool, byteLimit: nat, frameLimit: nat, acts: seq<Act>)
    ensures var c := Run(Init(flowControl, byteLimit, frameLimit), acts); AllBelow(c) && c.flowControl == flowControl
    decreases |acts|
  {
    if |acts| > 0 {
      var before := acts[..|acts| - 1];
      EveryRunStaysBelow(flowControl, byteLimit, frameLimit, before);
      EveryRunBalances(flowControl, byteLimit, frameLimit, before);
      StepKeepsBelow(Run(Init(flowControl, byteLimit, frameLimit), before), acts[|acts| - 1]);
    }
  }

  // ---- Room for honest bytes ----

  /** The streams other than `id` that hold unread bytes. */
  ghost function OthersHolding(c: Conn, id: nat): int
    requires id in c.members
  {
    Total(c.members - {id}, HoldsBytes)
  }

  lemma {:induction false} OthersBounded(c: Conn, id: nat)
    requires MembersOk(c) && AllBelow(c) && c.flowControl && id in c.members
    ensures Total(c.members - {id}, QueuedBytes) <= TCP_BYTES * OthersHolding(c, id)
  {
    var rest := c.members - {id};
    forall i | i in rest
      ensures QueuedBytes(rest[i]) <= TCP_BYTES * HoldsBytes(rest[i])
    {
      assert MemberOk(c.members[i]) && BelowLimit(c.flowControl, c.members[i]);
    }
    TotalBound(rest, QueuedBytes, HoldsBytes, TCP_BYTES);
  }

  /** In every reachable state, a payload that its own stream has room for fits the bulk limit of the
      connection, if that is worth one window for this stream and one for each other stream holding
      bytes. */
  lemma {:induction false} RoomForHonestBytes(byteLimit: nat, frameLimit: nat, acts: seq<Act>, id: nat, size: nat)
    requires var c := Run(Init(true, byteLimit, frameLimit), acts);
             && id in c.members && size <= ByteLimit(true, c.members[id].tcp) - c.members[id].rx.queued
             && TCP_BYTES * OthersHolding(c, id) + TCP_BYTES <= c.budget.BulkBytes()
    ensures var c := Run(Init(true, byteLimit, frameLimit), acts);
            size <= c.budget.BulkBytes() - c.budget.bytes && size <= c.budget.byteLimit - c.budget.bytes
  {
    EveryRunBalances(true, byteLimit, frameLimit, acts);
    EveryRunStaysBelow(true, byteLimit, frameLimit, acts);
    LimitsFixed(true, byteLimit, frameLimit, acts);
    var c := Run(Init(true, byteLimit, frameLimit), acts);
    TotalRemove(c.members, QueuedBytes, id);
    OthersBounded(c, id);
  }

  /** Frame limits, the only other reason to refuse. */
  predicate FramesFit(c: Conn, m: Member) {
    && m.rx.frames < FrameLimit(c.flowControl, m.tcp) && c.budget.frames < c.budget.frameLimit
    && (m.rx.frames + 1 > SMALL_FRAMES ==> c.budget.frames < c.budget.BulkFrames())
  }

  /** Where bytes are no reason to refuse, frames and a closed read side are the only ones. */
  lemma {:induction false} QueuesIffFramesFit(c: Conn, id: nat, size: nat)
    requires id in c.members && size <= ByteLimit(c.flowControl, c.members[id].tcp) - c.members[id].rx.queued
    requires size <= c.budget.BulkBytes() - c.budget.bytes && size <= c.budget.byteLimit - c.budget.bytes
    ensures Queues(c, id, size) <==> !c.members[id].rx.closed && FramesFit(c, c.members[id])
  {
  }

  /** No stream but `id` holds anything. */
  ghost predicate Alone(c: Conn, id: nat) {
    forall i :: i in c.members && i != id ==> c.members[i].rx.queued == 0 && c.members[i].rx.frames == 0
  }

  lemma {:induction false} AloneHoldsAll(c: Conn, id: nat)
    requires Balanced(c) && id in c.members && Alone(c, id)
    ensures c.budget.bytes == c.members[id].rx.queued && c.budget.frames == c.members[id].rx.frames
  {
    var rest := c.members - {id};
    TotalRemove(c.members, QueuedBytes, id);
    TotalRemove(c.members, QueuedFrames, id);
    TotalZero(rest, QueuedBytes);
    TotalZero(rest, QueuedFrames);
  }

  /** What a stream may hold under the default limits when it is alone: 4 MiB in 512 frames for TCP with
      flow control, 56 MiB in 3840 frames without (the frames that are reserved for small streams count
      against it), and 512 KiB in 32 packets for UDP. */
  lemma {:induction false} LoneStreamLimits(flowControl: bool, acts: seq<Act>, id: nat, size: nat)
    requires var c := Run(Init(flowControl, CONN_BYTES, CONN_FRAMES), acts); id in c.members && Alone(c, id)
    ensures var c := Run(Init(flowControl, CONN_BYTES, CONN_FRAMES), acts);
            var m := c.members[id];
            Queues(c, id, size) <==>
              && !m.rx.closed
              && m.rx.queued + size <= (if !m.tcp then 524288 else if flowControl then 4194304 else 58720256)
              && m.rx.frames < (if !m.tcp then 32 else if flowControl then 512 else 3840)
  {
    var c := Run(Init(flowControl, CONN_BYTES, CONN_FRAMES), acts);
    EveryRunBalances(flowControl, CONN_BYTES, CONN_FRAMES, acts);
    EveryRunStaysBelow(flowControl, CONN_BYTES, CONN_FRAMES, acts);
    LimitsFixed(flowControl, CONN_BYTES, CONN_FRAMES, acts);
    AloneHoldsAll(c, id);
  }

  /** Between honest peers, with at most 15 TCP windows held under the default limits: an arriving
      payload is refused by stream and connection together only for frames, never for bytes. The stream
      `id` of the connection is the receiving peer of a run of Flow. */
  lemma {:induction false} HonestBytesNeverRefused(
    cfg: Flow.Cfg, start: Flow.Net, turns: seq<Flow.Turn>, acts: seq<Act>, id: nat)
    requires cfg.flowControl && Flow.Start(cfg, start)
    requires var s := Flow.Run(cfg, start, turns); |s.ba| > 0 && s.ba[0].Data?
    requires var s, c := Flow.Run(cfg, start, turns), Run(Init(true, CONN_BYTES, CONN_FRAMES), acts);
             && id in c.members && c.members[id].rx == s.a.rx && c.members[id].tcp == cfg.tcp
             && OthersHolding(c, id) < 15
    ensures var s, c := Flow.Run(cfg, start, turns), Run(Init(true, CONN_BYTES, CONN_FRAMES), acts);
            Queues(c, id, |s.ba[0].payload|) <==> !s.a.rx.closed && FramesFit(c, c.members[id])
  {
    HonestSize(cfg, start, turns);
    RoomByDefault(acts, id, |Flow.Run(cfg, start, turns).ba[0].payload|);
    QueuesIffFramesFit(Run(Init(true, CONN_BYTES, CONN_FRAMES), acts), id, |Flow.Run(cfg, start, turns).ba[0].payload|);
  }

  /** A payload in flight from an honest peer fits the byte limit of its stream. */
  lemma {:induction false} HonestSize(cfg: Flow.Cfg, start: Flow.Net, turns: seq<Flow.Turn>)
    requires cfg.flowControl && Flow.Start(cfg, start)
    requires var s := Flow.Run(cfg, start, turns); |s.ba| > 0 && s.ba[0].Data?
    ensures var s := Flow.Run(cfg, start, turns); |s.ba[0].payload| <= ByteLimit(true, cfg.tcp) - s.a.rx.queued
  {
    Credit.RefusedOnlyForFramesOrBudget(cfg, start, turns, true);
  }

  /** The default bulk limit is worth 15 windows. */
  lemma {:induction false} RoomByDefault(acts: seq<Act>, id: nat, size: nat)
    requires var c := Run(Init(true, CONN_BYTES, CONN_FRAMES), acts);
             && id in c.members && size <= ByteLimit(true, c.members[id].tcp) - c.members[id].rx.queued
             && OthersHolding(c, id) < 15
    ensures var c := Run(Init(true, CONN_BYTES, CONN_FRAMES), acts);
            && size <= c.budget.BulkBytes() - c.budget.bytes && size <= c.budget.byteLimit - c.budget.bytes
            && c.flowControl
  {
    EveryRunStaysBelow(true, CONN_BYTES, CONN_FRAMES, acts);
    LimitsFixed(true, CONN_BYTES, CONN_FRAMES, acts);
    RoomForHonestBytes(CONN_BYTES, CONN_FRAMES, acts, id, size);
  }

  // ---- The two machines agree ----

  /** Stream `id` of the connection has the receive side of the peer. */
  predicate Mirrors(cfg: Flow.Cfg, p: Flow.Peer, c: Conn, id: nat) {
    && id in c.members && c.members[id].rx == p.rx && c.members[id].tcp == cfg.tcp
    && c.flowControl == cfg.flowControl
  }

  /** The budget's answer to a payload for the stream. */
  predicate Answer(c: Conn, id: nat, size: nat)
    requires id in c.members
  {
    c.budget.Admits(size, c.members[id].rx.queued + size, c.members[id].rx.frames + 1)
  }

  lemma {:induction false} RunNone(c: Conn, acts: seq<Act>)
    requires |acts| == 0
    ensures Run(c, acts) == c
  {
  }

  lemma {:induction false} RunSingle(c: Conn, act: Act)
    ensures Run(c, [act]) == Do(c, act)
  {
    assert [act][..0] == [];
  }

  /** A frame that arrives at the peer does to its receive side what one step does to the stream. */
  lemma {:induction false} ArrivalMirrored(
    cfg: Flow.Cfg, p: Flow.Peer, f: Flow.Frame, admits: bool, c: Conn, id: nat) returns (acts: seq<Act>)
    requires Mirrors(cfg, p, c, id) && (f.Data? ==> admits == Answer(c, id, |f.payload|))
    ensures |acts| <= 1 && Mirrors(cfg, Flow.OnFrame(cfg, p, f, admits), Run(c, acts), id)
    ensures f.Data? && p.registered ==> acts == [Queue(id, f.payload)]
  {
    if f.Data? && p.registered {
      RunSingle(c, Queue(id, f.payload));
      acts := [Queue(id, f.payload)];
    } else if f.CloseWrite? && p.registered {
      RunSingle(c, CloseRead(id, false));
      acts := [CloseRead(id, false)];
    } else {
      acts := [];
      RunNone(c, acts);
    }
  }

  lemma {:induction false} ReadMirrored(cfg: Flow.Cfg, p: Flow.Peer, act: Flow.Act, c: Conn, id: nat)
    returns (acts: seq<Act>)
    requires Mirrors(cfg, p, c, id) && (act.Read? || act.ReadDatagram?)
    ensures Mirrors(cfg, Flow.Local(cfg, p, act).peer, Run(c, acts), id)
    ensures acts == if act.Read? then [Read(id, act.room)] else [ReadDatagram(id)]
  {
    if act.Read? {
      RunSingle(c, Read(id, act.room));
      acts := [Read(id, act.room)];
    } else {
      RunSingle(c, ReadDatagram(id));
      acts := [ReadDatagram(id)];
    }
  }

  lemma {:induction false} CloseMirrored(cfg: Flow.Cfg, p: Flow.Peer, discard: bool, c: Conn, id: nat)
    returns (acts: seq<Act>)
    requires Mirrors(cfg, p, c, id)
    ensures Mirrors(cfg, Flow.Local(cfg, p, Flow.CloseRead(discard)).peer, Run(c, acts), id)
    ensures acts == if p.done then [CloseRead(id, discard)] else []
  {
    if p.done {
      RunSingle(c, CloseRead(id, discard));
      acts := [CloseRead(id, discard)];
    } else {
      acts := [];
      RunNone(c, acts);
    }
  }

  /** Every step of a peer in the machine of one stream does to its receive side what at most one step of
      the connection's machine does to that stream, if the connection's budget gives the answers: a payload
      that arrives is queued there, and what is read is read there. */
  lemma {:induction false} StepMirrored(cfg: Flow.Cfg, s: Flow.Net, act: Flow.Act, c: Conn, id: nat)
    returns (acts: seq<Act>)
    requires Mirrors(cfg, s.a, c, id)
    requires act.Deliver? && |s.ba| > 0 && s.ba[0].Data? ==> act.admits == Answer(c, id, |s.ba[0].payload|)
    ensures |acts| <= 1 && Mirrors(cfg, Flow.DoA(cfg, s, act).a, Run(c, acts), id)
    ensures act.Deliver? && |s.ba| > 0 && s.ba[0].Data? && s.a.registered && !s.a.down ==>
              acts == [Queue(id, s.ba[0].payload)]
    ensures act.Read? ==> acts == [Read(id, act.room)]
    ensures act.ReadDatagram? ==> acts == [ReadDatagram(id)]
  {
    if act.Deliver? && |s.ba| > 0 && !s.a.down {
      acts := ArrivalMirrored(cfg, s.a, s.ba[0], act.admits, c, id);
    } else if act.Read? || act.ReadDatagram? {
      acts := ReadMirrored(cfg, s.a, act, c, id);
    } else if act.CloseRead? {
      acts := CloseMirrored(cfg, s.a, act.discard, c, id);
    } else {
      OthersLeaveRx(cfg, s, act);
      acts := [];
      RunNone(c, acts);
    }
  }

  lemma {:induction false} OthersLeaveRx(cfg: Flow.Cfg, s: Flow.Net, act: Flow.Act)
    requires !act.Read? && !act.ReadDatagram? && !act.CloseRead?
    requires act.Deliver? ==> |s.ba| == 0 || s.a.down
    ensures Flow.DoA(cfg, s, act).a.rx == s.a.rx
  {
  }
}
