/** The receive budget that all streams of one tunnel connection share
    (go/internal/tunnel/tunnel.go), as a state machine with one step per mutex section.

    The members are every stream the connection ever created: a stream that was evicted or
    removed from the stream table keeps its place here until its owner has drained or closed it. */
module Ledger {
  import opened Bytes
  import opened Receive

  datatype Member = Member(tcp: bool, rx: Rx, discarded: bool)

  datatype Conn = Conn(flowControl: bool, budget: Budget, members: map<nat, Member>)

  datatype Act =
    | Open(id: nat, tcp: bool, rx: Rx)
    | Queue(id: nat, payload: Payload)
    | Read(id: nat, room: nat)
    | ReadDatagram(id: nat)
    | CloseRead(id: nat, discard: bool)

  function Init(flowControl: bool, byteLimit: nat, frameLimit: nat): Conn {
    Conn(flowControl, Budget(0, 0, byteLimit, frameLimit), map[])
  }

  predicate Queues(c: Conn, id: nat, size: nat)
    requires id in c.members
  {
    var m := c.members[id];
    && StreamAccepts(m.rx, size, ByteLimit(c.flowControl, m.tcp), FrameLimit(c.flowControl, m.tcp))
    && c.budget.Admits(size, m.rx.queued + size, m.rx.frames + 1)
  }

  /** A stream's receive state becomes `rx`, and what it gave up returns to the budget. */
  function Settle(c: Conn, id: nat, rx: Rx): Conn
    requires id in c.members
  {
    var old' := c.members[id].rx;
    c.(budget := c.budget.Release(old'.queued - rx.queued, old'.frames - rx.frames),
       members := c.members[id := c.members[id].(rx := rx)])
  }

  /** One atomic step; an action that does not apply changes nothing. */
  function Do(c: Conn, act: Act): Conn {
    match act
    case Open(id, tcp, rx) =>
      if id !in c.members && IsFresh(rx) then c.(members := c.members[id := Member(tcp, rx, false)]) else c
    case Queue(id, payload) =>
      if id in c.members && Queues(c, id, |payload|) then
        var m := c.members[id];
        c.(budget := c.budget.Reserve(|payload|), members := c.members[id := m.(rx := Enqueue(m.rx, payload))])
      else c
    case Read(id, room) =>
      if id in c.members && c.members[id].tcp then Settle(c, id, ReadBytes(c.members[id].rx, room).rx) else c
    case ReadDatagram(id) =>
      if id in c.members && !c.members[id].tcp then Settle(c, id, ReadPacket(c.members[id].rx).rx) else c
    case CloseRead(id, discard) =>
      if id in c.members then
        var d := Settle(c, id, CloseRx(c.members[id].rx, discard));
        d.(members := d.members[id := d.members[id].(discarded := discard || d.members[id].discarded)])
      else c
  }

  function Run(c: Conn, acts: seq<Act>): Conn
    decreases |acts|
  {
    if |acts| == 0 then c else Do(Run(c, acts[..|acts| - 1]), acts[|acts| - 1])
  }

  // ---- Sums over the streams of a connection ----

  ghost function Total(members: map<nat, Member>, f: Member -> int): int
    decreases |members|
  {
    if members == map[] then 0
    else
      var id :| id in members;
      f(members[id]) + Total(members - {id}, f)
  }

  lemma {:induction false} TotalRemove(members: map<nat, Member>, f: Member -> int, id: nat)
    requires id in members
    ensures Total(members, f) == f(members[id]) + Total(members - {id}, f)
    decreases |members|
  {
    var other :| other in members && Total(members, f) == f(members[other]) + Total(members - {other}, f);
    if other != id {
      var rest := members - {other};
      TotalRemove(rest, f, id);
      TotalRemove(members - {id}, f, other);
      assert rest - {id} == members - {id} - {other};
    }
  }

  lemma {:induction false} TotalUpdate(members: map<nat, Member>, f: Member -> int, id: nat, m: Member)
    ensures Total(members[id := m], f)
            == Total(members, f) + f(m) - (if id in members then f(members[id]) else 0)
  {
    TotalRemove(members[id := m], f, id);
    if id in members {
      TotalRemove(members, f, id);
      assert members[id := m] - {id} == members - {id};
    } else {
      assert members[id := m] - {id} == members;
    }
  }

  lemma {:induction false} TotalBound(members: map<nat, Member>, f: Member -> int, g: Member -> int, factor: nat)
    requires forall id :: id in members ==> f(members[id]) <= factor * g(members[id])
    ensures Total(members, f) <= factor * Total(members, g)
    decreases |members|
  {
    if members != map[] {
      var id :| id in members;
      var rest := members - {id};
      TotalRemove(members, f, id);
      TotalRemove(members, g, id);
      TotalBound(rest, f, g, factor);
      Distribute(factor, g(members[id]), Total(rest, g));
    }
  }

  lemma {:induction false} Distribute(k: int, x: int, y: int)
    ensures k * (x + y) == k * x + k * y
  {
  }

  lemma {:induction false} TotalZero(members: map<nat, Member>, f: Member -> int)
    requires forall id :: id in members ==> f(members[id]) == 0
    ensures Total(members, f) == 0
    decreases |members|
  {
    if members != map[] {
      var id :| id in members;
      TotalRemove(members, f, id);
      TotalZero(members - {id}, f);
    }
  }

  function QueuedBytes(m: Member): int { m.rx.queued }

  function QueuedFrames(m: Member): int { m.rx.frames }

  function SmallBytes(m: Member): int { Min(m.rx.queued, SMALL_BYTES) }

  function SmallFrames(m: Member): int { Min(m.rx.frames, SMALL_FRAMES) }

  function HoldsBytes(m: Member): int { if m.rx.queued > 0 then 1 else 0 }

  function HoldsFrames(m: Member): int { if m.rx.frames > 0 then 1 else 0 }

  // ---- The invariant ----

  predicate MemberOk(m: Member) {
    && RxOk(m.rx)
    && (!m.tcp ==> |m.rx.buf| == 0)
    && (m.discarded ==> m.rx.closed && m.rx.frames == 0 && m.rx.queued == 0)
  }

  ghost predicate MembersOk(c: Conn) {
    forall id :: id in c.members ==> MemberOk(c.members[id])
  }

  /** The counters of the connection are the sums over its streams. */
  ghost predicate Balanced(c: Conn) {
    && c.budget.bytes == Total(c.members, QueuedBytes)
    && c.budget.frames == Total(c.members, QueuedFrames)
  }

  /** What lies above the bulk limits is held by the small shares of the streams. */
  ghost predicate Reserved(c: Conn) {
    && c.budget.bytes <= c.budget.BulkBytes() + Total(c.members, SmallBytes)
    && c.budget.frames <= c.budget.BulkFrames() + Total(c.members, SmallFrames)
  }

  ghost predicate Inv(c: Conn) {
    && MembersOk(c) && Balanced(c) && Reserved(c)
    && c.budget.bytes <= c.budget.byteLimit
    && c.budget.frames <= c.budget.frameLimit
  }

  lemma {:induction false} OpenKeeps(c: Conn, id: nat, tcp: bool, rx: Rx)
    requires Inv(c) && id !in c.members && IsFresh(rx)
    ensures Inv(Do(c, Open(id, tcp, rx)))
  {
    var m := Member(tcp, rx, false);
    assert MemberOk(m);
    TotalUpdate(c.members, QueuedBytes, id, m);
    TotalUpdate(c.members, QueuedFrames, id, m);
    TotalUpdate(c.members, SmallBytes, id, m);
    TotalUpdate(c.members, SmallFrames, id, m);
  }

  lemma {:induction false} QueueKeeps(c: Conn, id: nat, payload: Payload)
    requires Inv(c) && id in c.members && Queues(c, id, |payload|)
    ensures Inv(Do(c, Queue(id, payload)))
  {
    var m := c.members[id];
    var m' := m.(rx := Enqueue(m.rx, payload));
    EnqueueOk(m.rx, payload);
    TotalUpdate(c.members, QueuedBytes, id, m');
    TotalUpdate(c.members, QueuedFrames, id, m');
    TotalUpdate(c.members, SmallBytes, id, m');
    TotalUpdate(c.members, SmallFrames, id, m');
    SmallSharesNonnegative(Do(c, Queue(id, payload)).members);
  }

  lemma {:induction false} SmallSharesNonnegative(members: map<nat, Member>)
    requires forall id :: id in members ==> MemberOk(members[id])
    ensures Total(members, SmallBytes) >= 0 && Total(members, SmallFrames) >= 0
    ensures Total(members, QueuedBytes) >= 0 && Total(members, QueuedFrames) >= 0
    decreases |members|
  {
    if members != map[] {
      var id :| id in members;
      SmallSharesNonnegative(members - {id});
      TotalRemove(members, SmallBytes, id);
      TotalRemove(members, SmallFrames, id);
      TotalRemove(members, QueuedBytes, id);
      TotalRemove(members, QueuedFrames, id);
    }
  }

  /** Every way of giving memory back: the stream's counts do not grow, and the budget falls
      by exactly as much. */
  lemma {:induction false} SettleKeeps(c: Conn, id: nat, rx: Rx, m': Member, c': Conn)
    requires Inv(c) && id in c.members
    requires m'.rx == rx && GivesBack(c.members[id], m')
    requires c'.budget == Settle(c, id, rx).budget && c'.members == c.members[id := m']
    ensures Inv(c')
  {
    TotalUpdate(c.members, QueuedBytes, id, m');
    TotalUpdate(c.members, QueuedFrames, id, m');
    TotalUpdate(c.members, SmallBytes, id, m');
    TotalUpdate(c.members, SmallFrames, id, m');
  }

  /** A member after Read, ReadDatagram or closeRead: still in order, and holding no more. */
  predicate GivesBack(m: Member, m': Member) {
    MemberOk(m') && m'.rx.queued <= m.rx.queued && m'.rx.frames <= m.rx.frames
  }

  lemma {:induction false} ReadGivesBack(m: Member, room: nat)
    requires MemberOk(m) && m.tcp
    ensures GivesBack(m, m.(rx := ReadBytes(m.rx, room).rx))
  {
    ReadBytesOk(m.rx, room);
    DrainedStays(m, ReadBytes(m.rx, room).rx);
  }

  lemma {:induction false} PacketGivesBack(m: Member)
    requires MemberOk(m) && !m.tcp
    ensures GivesBack(m, m.(rx := ReadPacket(m.rx).rx))
  {
    ReadPacketOk(m.rx);
    DrainedStays(m, ReadPacket(m.rx).rx);
  }

  lemma {:induction false} CloseGivesBack(m: Member, discard: bool)
    requires MemberOk(m)
    ensures GivesBack(m, m.(rx := CloseRx(m.rx, discard), discarded := discard || m.discarded))
  {
    CloseRxOk(m.rx, discard);
  }

  lemma {:induction false} ReadKeeps(c: Conn, id: nat, room: nat)
    requires Inv(c) && id in c.members && c.members[id].tcp
    ensures Inv(Do(c, Read(id, room)))
  {
    var m := c.members[id];
    ReadGivesBack(m, room);
    SettleKeeps(c, id, ReadBytes(m.rx, room).rx, m.(rx := ReadBytes(m.rx, room).rx), Do(c, Read(id, room)));
  }

  lemma {:induction false} ReadDatagramKeeps(c: Conn, id: nat)
    requires Inv(c) && id in c.members && !c.members[id].tcp
    ensures Inv(Do(c, ReadDatagram(id)))
  {
    var m := c.members[id];
    PacketGivesBack(m);
    SettleKeeps(c, id, ReadPacket(m.rx).rx, m.(rx := ReadPacket(m.rx).rx), Do(c, ReadDatagram(id)));
  }

  lemma {:induction false} CloseReadKeeps(c: Conn, id: nat, discard: bool)
    requires Inv(c) && id in c.members
    ensures Inv(Do(c, CloseRead(id, discard)))
  {
    var m := c.members[id];
    var m' := m.(rx := CloseRx(m.rx, discard), discarded := discard || m.discarded);
    CloseGivesBack(m, discard);
    ClosedMember(c, id, discard, m');
    SettleKeeps(c, id, m'.rx, m', Do(c, CloseRead(id, discard)));
  }

  lemma {:induction false} ClosedMember(c: Conn, id: nat, discard: bool, m': Member)
    requires id in c.members
    requires var m := c.members[id];
             m' == m.(rx := CloseRx(m.rx, discard), discarded := discard || m.discarded)
    ensures Do(c, CloseRead(id, discard)).members == c.members[id := m']
  {
  }

  /** A stream with nothing queued has nothing to read. */
  lemma {:induction false} DrainedStays(m: Member, rx: Rx)
    requires MemberOk(m) && RxOk(rx) && rx.closed == m.rx.closed
    requires rx.queued <= m.rx.queued && rx.frames <= m.rx.frames
    requires !m.tcp ==> |rx.buf| == 0
    ensures MemberOk(m.(rx := rx))
  {
  }

  lemma {:induction false} StepKeeps(c: Conn, act: Act)
    requires Inv(c)
    ensures Inv(Do(c, act))
  {
    match act
    case Open(id, tcp, rx) =>
      if id !in c.members && IsFresh(rx) {
        OpenKeeps(c, id, tcp, rx);
      }
    case Queue(id, payload) =>
      if id in c.members && Queues(c, id, |payload|) {
        QueueKeeps(c, id, payload);
      }
    case Read(id, room) =>
      if id in c.members && c.members[id].tcp {
        ReadKeeps(c, id, room);
      }
    case ReadDatagram(id) =>
      if id in c.members && !c.members[id].tcp {
        ReadDatagramKeeps(c, id);
      }
    case CloseRead(id, discard) =>
      if id in c.members {
        CloseReadKeeps(c, id, discard);
      }
  }

  /** In every reachable state the connection's counters are the sums over its streams, the
      reserve is intact and the limits hold. */
  lemma {:induction false} EveryRunBalances(flowControl: bool, byteLimit: nat, frameLimit: nat, acts: seq<Act>)
    ensures Inv(Run(Init(flowControl, byteLimit, frameLimit), acts))
    decreases |acts|
  {
    if |acts| > 0 {
      EveryRunBalances(flowControl, byteLimit, frameLimit, acts[..|acts| - 1]);
      StepKeeps(Run(Init(flowControl, byteLimit, frameLimit), acts[..|acts| - 1]), acts[|acts| - 1]);
    }
  }

  ghost predicate AllDiscarded(c: Conn) {
    forall id :: id in c.members ==> c.members[id].discarded
  }

  /** Once every stream has been closed by its owner, both counters are zero. */
  lemma {:induction false} EverythingClosedFreesTheBudget(
    flowControl: bool, byteLimit: nat, frameLimit: nat, acts: seq<Act>)
    requires AllDiscarded(Run(Init(flowControl, byteLimit, frameLimit), acts))
    ensures Run(Init(flowControl, byteLimit, frameLimit), acts).budget == Budget(0, 0, byteLimit, frameLimit)
  {
    EveryRunBalances(flowControl, byteLimit, frameLimit, acts);
    LimitsFixed(flowControl, byteLimit, frameLimit, acts);
    var c := Run(Init(flowControl, byteLimit, frameLimit), acts);
    forall id | id in c.members ensures QueuedBytes(c.members[id]) == 0 && QueuedFrames(c.members[id]) == 0 {
      assert MemberOk(c.members[id]) && c.members[id].discarded;
    }
    TotalZero(c.members, QueuedBytes);
    TotalZero(c.members, QueuedFrames);
  }

  /** `now` is what is left of `was` after dropping bytes from its front. */
  ghost predicate Remains(was: Payload, now: Payload) {
    exists k :: 0 <= k <= |was| && now == was[k..]
  }

  lemma {:induction false} RemainsAll(was: Payload)
    ensures Remains(was, was)
  {
    assert was == was[0..];
  }

  lemma {:induction false} RemainsAfter(data: Payload, now: Payload)
    ensures Remains(data + now, now)
  {
    assert now == (data + now)[|data|..];
  }

  lemma {:induction false} RemainsThen(a: Payload, b: Payload, c: Payload)
    requires Remains(a, b) && Remains(b, c)
    ensures Remains(a, c)
  {
    var j :| 0 <= j <= |a| && b == a[j..];
    var k :| 0 <= k <= |b| && c == b[k..];
    assert c == a[j + k..];
  }

  lemma {:induction false} ReadDropsFront(rx: Rx, room: nat)
    requires RxOk(rx)
    ensures Remains(Unread(rx), Unread(ReadBytes(rx, room).rx)) && ReadBytes(rx, room).rx.closed == rx.closed
  {
    ReadBytesOk(rx, room);
    RemainsAfter(ReadBytes(rx, room).data, Unread(ReadBytes(rx, room).rx));
  }

  lemma {:induction false} PacketDropsFront(rx: Rx)
    requires RxOk(rx) && |rx.buf| == 0
    ensures Remains(Unread(rx), Unread(ReadPacket(rx).rx)) && ReadPacket(rx).rx.closed == rx.closed
  {
    if |rx.queue| == 0 {
      RemainsAll(Unread(rx));
    } else {
      var rest := Unread(ReadPacket(rx).rx);
      assert rest == Flatten(rx.queue[1..]);
      assert Unread(rx) == Flatten(rx.queue) == rx.queue[0] + rest;
      RemainsAfter(rx.queue[0], rest);
    }
  }

  lemma {:induction false} CloseDropsFront(rx: Rx, discard: bool)
    requires RxOk(rx)
    ensures Remains(Unread(rx), Unread(CloseRx(rx, discard))) && CloseRx(rx, discard).closed
  {
    CloseRxOk(rx, discard);
    if discard {
      assert Unread(rx) + Unread(CloseRx(rx, discard)) == Unread(rx);
      RemainsAfter(Unread(rx), Unread(CloseRx(rx, discard)));
    } else {
      RemainsAll(Unread(rx));
    }
  }

  /** The receive side of `id`, if one step touches it. */
  predicate ClosedRx(c: Conn, id: nat) {
    id in c.members && c.members[id].rx.closed
  }

  /** One step on a closed stream drops some of its unread bytes from the front. */
  lemma {:induction false} ClosedStep(c: Conn, id: nat, act: Act)
    requires Inv(c) && ClosedRx(c, id)
    ensures ClosedRx(Do(c, act), id)
    ensures Remains(Unread(c.members[id].rx), Unread(Do(c, act).members[id].rx))
  {
    var m := c.members[id];
    assert MemberOk(m);
    RemainsAll(Unread(m.rx));
    match act
    case Read(other, room) => if other == id { ReadDropsFront(m.rx, room); }
    case ReadDatagram(other) => if other == id && !m.tcp { PacketDropsFront(m.rx); }
    case CloseRead(other, discard) => if other == id { CloseDropsFront(m.rx, discard); }
    case _ =>
  }

  /** After a stream's receive side is closed its unread bytes only shrink, from the front:
      nothing is queued behind the end, whatever the other streams do. */
  lemma {:induction false} NothingQueuedAfterClose(c: Conn, id: nat, acts: seq<Act>)
    requires Inv(c) && ClosedRx(c, id)
    ensures Inv(Run(c, acts)) && ClosedRx(Run(c, acts), id)
    ensures Remains(Unread(c.members[id].rx), Unread(Run(c, acts).members[id].rx))
    decreases |acts|
  {
    if |acts| == 0 {
      RemainsAll(Unread(c.members[id].rx));
    } else {
      var before, act := Run(c, acts[..|acts| - 1]), acts[|acts| - 1];
      NothingQueuedAfterClose(c, id, acts[..|acts| - 1]);
      StepKeeps(before, act);
      ClosedStep(before, id, act);
      RemainsThen(Unread(c.members[id].rx), Unread(before.members[id].rx), Unread(Do(before, act).members[id].rx));
    }
  }

  // ---- What the reserve buys ----

  /** How many streams hold unread bytes (frames). */
  ghost function StreamsHoldingBytes(c: Conn): int { Total(c.members, HoldsBytes) }

  ghost function StreamsHoldingFrames(c: Conn): int { Total(c.members, HoldsFrames) }

  /** With the default limits, a payload that leaves its stream small is refused for lack of
      bytes only when at least 64 distinct streams hold queued bytes. */
  lemma {:induction false} SmallStreamRefusedOnBytes(flowControl: bool, acts: seq<Act>, id: nat, size: nat)
    requires var c := Run(Init(flowControl, CONN_BYTES, CONN_FRAMES), acts);
             && id in c.members
             && c.members[id].rx.queued + size <= SMALL_BYTES
             && size > c.budget.byteLimit - c.budget.bytes
    ensures StreamsHoldingBytes(Run(Init(flowControl, CONN_BYTES, CONN_FRAMES), acts)) >= 64
  {
    EveryRunBalances(flowControl, CONN_BYTES, CONN_FRAMES, acts);
    LimitsFixed(flowControl, CONN_BYTES, CONN_FRAMES, acts);
    var c := Run(Init(flowControl, CONN_BYTES, CONN_FRAMES), acts);
    forall i | i in c.members ensures SmallBytes(c.members[i]) <= SMALL_BYTES * HoldsBytes(c.members[i]) {
      assert MemberOk(c.members[i]);
    }
    TotalBound(c.members, SmallBytes, HoldsBytes, SMALL_BYTES);
  }

  /** Likewise for frames: at least 32 distinct streams hold queued frames. */
  lemma {:induction false} SmallStreamRefusedOnFrames(flowControl: bool, acts: seq<Act>, id: nat)
    requires var c := Run(Init(flowControl, CONN_BYTES, CONN_FRAMES), acts);
             && id in c.members
             && c.members[id].rx.frames + 1 <= SMALL_FRAMES
             && c.budget.frames >= c.budget.frameLimit
    ensures StreamsHoldingFrames(Run(Init(flowControl, CONN_BYTES, CONN_FRAMES), acts)) >= 32
  {
    EveryRunBalances(flowControl, CONN_BYTES, CONN_FRAMES, acts);
    LimitsFixed(flowControl, CONN_BYTES, CONN_FRAMES, acts);
    var c := Run(Init(flowControl, CONN_BYTES, CONN_FRAMES), acts);
    forall i | i in c.members ensures SmallFrames(c.members[i]) <= SMALL_FRAMES * HoldsFrames(c.members[i]) {
      assert MemberOk(c.members[i]);
    }
    TotalBound(c.members, SmallFrames, HoldsFrames, SMALL_FRAMES);
  }

  lemma {:induction false} LimitsFixed(flowControl: bool, byteLimit: nat, frameLimit: nat, acts: seq<Act>)
    ensures var b := Run(Init(flowControl, byteLimit, frameLimit), acts).budget;
            b.byteLimit == byteLimit && b.frameLimit == frameLimit
    decreases |acts|
  {
    if |acts| > 0 {
      LimitsFixed(flowControl, byteLimit, frameLimit, acts[..|acts| - 1]);
    }
  }
}
