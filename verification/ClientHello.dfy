/** Reassembling a TLS ClientHello from its records (go/internal/sniproxy/sniproxy.go). */
module ClientHello {
  import opened Bytes
  import opened Tlv

  const MAX_RECORD := 16384
  const MAX_HELLO := 262144
  const MAX_RECORDS := 64

  // ---- What the handshake bytes say ----

  /** What a prefix of the handshake stream decides. */
  datatype Verdict = NeedMore | NotHello | Complete(handshake: Payload)

  /** The four header bytes and the length they announce. */
  function Announced(b: Payload): nat
    requires |b| >= 4
  {
    4 + 65536 * (b[1] as int) + 256 * (b[2] as int) + (b[3] as int)
  }

  function Assess(b: Payload): Verdict {
    if |b| < 4 then NeedMore
    else if b[0] != 1 || Announced(b) > MAX_HELLO then NotHello
    else if |b| < Announced(b) then NeedMore
    else Complete(b[..Announced(b)])
  }

  /** Once decided, more bytes change nothing. */
  lemma {:induction false} DecidedStaysDecided(b: Payload, more: Payload)
    requires !Assess(b).NeedMore?
    ensures Assess(b + more) == Assess(b)
  {
    assert Announced(b + more) == Announced(b);
    if Assess(b).Complete? {
      assert (b + more)[..Announced(b)] == b[..Announced(b)];
    }
  }

  // ---- Records ----

  datatype Record = Record(version: Payload, payload: Payload)

  predicate RecordOk(r: Record) {
    |r.version| == 2 && 1 <= |r.payload| <= MAX_RECORD
  }

  predicate RecordsOk(rs: seq<Record>) {
    forall i :: 0 <= i < |rs| ==> RecordOk(rs[i])
  }

  /** Section 5.1 of RFC 8446: content type 22, version, length, fragment. */
  function One(r: Record): Payload
    requires RecordOk(r)
  {
    [0x16] + r.version + Be16(|r.payload|) + r.payload
  }

  function Wire(rs: seq<Record>): Payload
    requires RecordsOk(rs)
  {
    if |rs| == 0 then [] else One(rs[0]) + Wire(rs[1..])
  }

  function Stream(rs: seq<Record>): Payload {
    if |rs| == 0 then [] else rs[0].payload + Stream(rs[1..])
  }

  /** A whole handshake record of an acceptable length comes next. */
  predicate HasRecord(input: Payload) {
    && |input| >= 5 && input[0] == 0x16
    && 1 <= U16(input[3..5]) <= MAX_RECORD && 5 + U16(input[3..5]) <= |input|
  }

  function Next(input: Payload): (r: Record)
    requires HasRecord(input)
    ensures RecordOk(r)
  {
    Record(input[1..3], input[5..5 + U16(input[3..5])])
  }

  lemma {:induction false} NextOfOne(r: Record, rest: Payload)
    requires RecordOk(r)
    ensures |One(r)| == 5 + |r.payload|
    ensures var b := One(r) + rest; HasRecord(b) && Next(b) == r && b[5 + |r.payload|..] == rest
  {
    var b := One(r) + rest;
    assert b[3..5] == Be16(|r.payload|);
    assert b[1..3] == r.version;
    assert b[5..5 + |r.payload|] == r.payload;
  }

  lemma {:induction false} OneOfNext(input: Payload)
    requires HasRecord(input)
    ensures One(Next(input)) + input[5 + |Next(input).payload|..] == input
  {
    Be16Inverse(input[3..5]);
  }

  // ---- Reading ----

  /** An error, or the handshake and the number of bytes it took. */
  datatype Peeked = Error | Hello(handshake: Payload, used: nat)

  function Shift(p: Peeked, n: nat): Peeked {
    if p.Error? then Error else Hello(p.handshake, p.used + n)
  }

  /** Reading up to `budget` records after the handshake bytes `seen`. */
  function Peek(input: Payload, seen: Payload, budget: nat): Peeked
    decreases |input|
  {
    if budget == 0 || !HasRecord(input) then Error
    else
      var r := Next(input);
      var n := 5 + |r.payload|;
      match Assess(seen + r.payload)
      case NotHello => Error
      case Complete(handshake) => Hello(handshake, n)
      case NeedMore => Shift(Peek(input[n..], seen + r.payload, budget - 1), n)
  }

  /** Between records the source has all handshake bytes so far, and their announced length
      once four are there. */
  ghost predicate Keeps(handshake: Payload, expected: nat) {
    && Assess(handshake).NeedMore?
    && (if expected == 0 then |handshake| < 4 else |handshake| >= 4 && expected == Announced(handshake))
  }

  lemma {:induction false} PeekRecord(input: Payload, seen: Payload, budget: nat, payload: Payload, rest: Payload)
    requires budget > 0 && HasRecord(input) && payload == Next(input).payload && rest == input[5 + |payload|..]
    ensures var p, n := Peek(input, seen, budget), 5 + |payload|;
            match Assess(seen + payload)
            case NotHello => p.Error?
            case Complete(handshake) => p == Hello(handshake, n)
            case NeedMore => p == Shift(Peek(rest, seen + payload, budget - 1), n)
  {
  }

  datatype Progress = Failed | Going(handshake: Payload, expected: nat)

  /** The body of readClientHello's loop after a record was read. */
  function Extend(handshake: Payload, expected: nat, payload: Payload): Progress {
    if expected == 0 then
      var h := handshake + payload;
      if |h| < 4 then Going(h, 0)
      else if h[0] != 1 || Announced(h) > MAX_HELLO then Failed
      else Going(h, Announced(h))
    else
      Going(handshake + payload[..Clamp(expected - |handshake|, |payload|)], expected)
  }

  function Clamp(remaining: int, n: nat): nat {
    if remaining < 0 then 0 else if remaining > n then n else remaining
  }

  /** Keeping only what is announced decides the same as keeping everything. */
  lemma {:induction false} ExtendAgrees(handshake: Payload, expected: nat, payload: Payload)
    requires Keeps(handshake, expected)
    ensures var e, v := Extend(handshake, expected, payload), Assess(handshake + payload);
            match v
            case NotHello => e.Failed?
            case NeedMore =>
              && e.Going? && e.handshake == handshake + payload && Keeps(e.handshake, e.expected)
              && (e.expected == 0 || |e.handshake| < e.expected)
            case Complete(h) =>
              e.Going? && e.expected > 0 && |e.handshake| >= e.expected && e.handshake[..e.expected] == h
  {
    var all := handshake + payload;
    if expected > 0 {
      assert Announced(all) == Announced(handshake) == expected;
      var kept := payload[..Clamp(expected - |handshake|, |payload|)];
      if |all| < expected {
        assert kept == payload;
      } else {
        assert (handshake + kept)[..expected] == all[..expected];
      }
    }
  }

  /** The loop goes on, has failed or is done. */
  predicate Done(e: Progress) {
    e.Going? && e.expected > 0 && |e.handshake| >= e.expected
  }

  lemma {:induction false} RoundAgrees(
    input: Payload, handshake: Payload, expected: nat, budget: nat, payload: Payload, rest: Payload)
    requires budget > 0 && Keeps(handshake, expected)
    requires HasRecord(input) && payload == Next(input).payload && rest == input[5 + |payload|..]
    ensures var p, e, n := Peek(input, handshake, budget), Extend(handshake, expected, payload), 5 + |payload|;
            if e.Failed? then p.Error?
            else if Done(e) then p == Hello(e.handshake[..e.expected], n)
            else Keeps(e.handshake, e.expected) && p == Shift(Peek(rest, e.handshake, budget - 1), n)
  {
    PeekRecord(input, handshake, budget, payload, rest);
    ExtendAgrees(handshake, expected, payload);
  }

  /** One turn of readClientHello's loop, which takes `n` bytes off the connection. */
  method ReadRecord(unread: Payload, handshake: Payload, expected: nat, ghost budget: nat) returns (e: Progress, n: nat)
    requires budget > 0 && Keeps(handshake, expected)
    ensures e.Failed? ==> Peek(unread, handshake, budget).Error?
    ensures e.Going? ==> n <= |unread|
    ensures e.Going? && Done(e) ==> Peek(unread, handshake, budget) == Hello(e.handshake[..e.expected], n)
    ensures e.Going? && !Done(e) ==>
              Keeps(e.handshake, e.expected)
                && Peek(unread, handshake, budget) == Shift(Peek(unread[n..], e.handshake, budget - 1), n)
  {
    if |unread| < 5 || unread[0] != 0x16 {
      return Failed, 0;
    }
    var length := U16(unread[3..5]);
    if length == 0 || length > MAX_RECORD || |unread| < 5 + length {
      return Failed, 0;
    }
    n := 5 + length;
    e := Extend(handshake, expected, unread[5..n]);
    RoundAgrees(unread, handshake, expected, budget, unread[5..n], unread[n..]);
  }

  /** What is left to read will decide `whole`. */
  ghost predicate Reading(whole: Peeked, used: nat, unread: Payload, handshake: Payload, expected: nat, budget: nat) {
    Keeps(handshake, expected) && whole == Shift(Peek(unread, handshake, budget), used)
  }

  lemma {:induction false} StartsReading(input: Payload, none: Payload, budget: nat)
    requires |none| == 0
    ensures Reading(Peek(input, none, budget), 0, input, none, 0, budget)
  {
  }

  lemma {:induction false} OutOfRecords(whole: Peeked, used: nat, unread: Payload, handshake: Payload, expected: nat)
    requires Reading(whole, used, unread, handshake, expected, 0)
    ensures whole.Error?
  {
  }

  lemma {:induction false} ShiftTwice(p: Peeked, n: nat, used: nat)
    ensures Shift(Shift(p, n), used) == Shift(p, used + n)
  {
  }

  lemma {:induction false} Moved(input: Payload, replay: Payload, unread: Payload, n: nat)
    requires n <= |unread| && replay + unread == input
    ensures replay + unread[..n] + unread[n..] == input && |replay + unread[..n]| == |replay| + n
  {
  }

  /** One turn of readClientHello's loop, for the outcome as a whole: the new state, and what is
      replayed and unread after it. */
  method ReadOne(
    input: Payload, replay: Payload, unread: Payload, handshake: Payload, expected: nat, ghost whole: Peeked,
    ghost budget: nat)
    returns (e: Progress, replay': Payload, unread': Payload)
    requires budget > 0 && replay + unread == input
    requires Reading(whole, |replay|, unread, handshake, expected, budget)
    ensures replay' + unread' == input
    ensures e.Failed? ==> whole.Error?
    ensures e.Going? && Done(e) ==> whole == Hello(e.handshake[..e.expected], |replay'|)
    ensures e.Going? && !Done(e) ==> Reading(whole, |replay'|, unread', e.handshake, e.expected, budget - 1)
  {
    var n;
    e, n := ReadRecord(unread, handshake, expected, budget);
    if e.Failed? {
      return e, replay, unread;
    }
    Moved(input, replay, unread, n);
    replay', unread' := replay + unread[..n], unread[n..];
    if !Done(e) {
      ShiftTwice(Peek(unread', e.handshake, budget - 1), n, |replay|);
    }
  }

  /** The loop of readClientHello, from no handshake bytes and with the records it may read. */
  method ReadRecords(input: Payload, none: Payload, records: nat)
    returns (ok: bool, handshake: Payload, replay: Payload, unread: Payload)
    requires |none| == 0
    ensures ok ==> replay + unread == input
    ensures ok == Peek(input, none, records).Hello?
    ensures ok ==> Peek(input, none, records) == Hello(handshake, |replay|)
  {
    handshake, replay, unread := none, none, input;
    var expected: nat := 0;
    ghost var whole := Peek(input, none, records);
    StartsReading(input, none, records);
    for record := 0 to records
      invariant replay + unread == input
      invariant Reading(whole, |replay|, unread, handshake, expected, records - record)
    {
      var e;
      e, replay, unread := ReadOne(input, replay, unread, handshake, expected, whole, records - record);
      if e.Failed? {
        ok := false;
        return;
      }
      handshake, expected := e.handshake, e.expected;
      if Done(e) {
        return true, handshake[..expected], replay, unread;
      }
    }
    OutOfRecords(whole, |replay|, unread, handshake, expected);
    ok := false;
  }

  /** readClientHello on the bytes a connection will deliver. The replayed bytes and what is left
      unread are together what was delivered. */
  method ReadClientHello(input: Payload) returns (ok: bool, handshake: Payload, replay: Payload, unread: Payload)
    ensures ok ==> replay + unread == input
    ensures match Peek(input, [], MAX_RECORDS)
            case Error => !ok
            case Hello(h, used) => ok && handshake == h && |replay| == used
  {
    ok, handshake, replay, unread := ReadRecords(input, [], MAX_RECORDS);
  }

  // ---- Fragmentation does not matter ----

  lemma {:induction false} WireHead(rs: seq<Record>, seen: Payload, rest: Payload)
    requires RecordsOk(rs) && |rs| > 0
    ensures Wire(rs) + rest == One(rs[0]) + (Wire(rs[1..]) + rest)
    ensures seen + Stream(rs) == seen + rs[0].payload + Stream(rs[1..])
  {
  }

  lemma {:induction false} PeekWire(rs: seq<Record>, seen: Payload, rest: Payload, budget: nat)
    requires RecordsOk(rs) && |rs| > 0 && budget > 0
    ensures var p, n, seen' := Peek(Wire(rs) + rest, seen, budget), |One(rs[0])|, seen + rs[0].payload;
            && seen + Stream(rs) == seen' + Stream(rs[1..]) && |Wire(rs)| == n + |Wire(rs[1..])|
            && match Assess(seen')
               case NotHello => p.Error?
               case Complete(handshake) => p == Hello(handshake, n)
               case NeedMore => p == Shift(Peek(Wire(rs[1..]) + rest, seen', budget - 1), n)
  {
    var after := Wire(rs[1..]) + rest;
    WireHead(rs, seen, rest);
    NextOfOne(rs[0], after);
    PeekRecord(One(rs[0]) + after, seen, budget, rs[0].payload, after);
  }

  predicate Agrees(p: Peeked, v: Verdict, most: nat) {
    match v
    case Complete(h) => p.Hello? && p.handshake == h && p.used <= most
    case _ => p.Error?
  }

  lemma {:induction false} DecidedByFirst(rs: seq<Record>, seen: Payload, rest: Payload, budget: nat)
    requires RecordsOk(rs) && |rs| > 0 && budget > 0 && !Assess(seen + rs[0].payload).NeedMore?
    ensures Agrees(Peek(Wire(rs) + rest, seen, budget), Assess(seen + Stream(rs)), |Wire(rs)|)
  {
    PeekWire(rs, seen, rest, budget);
    DecidedStaysDecided(seen + rs[0].payload, Stream(rs[1..]));
  }

  lemma {:induction false} DecidedByOthers(rs: seq<Record>, seen: Payload, rest: Payload, budget: nat)
    requires RecordsOk(rs) && |rs| > 0 && budget > 0 && Assess(seen + rs[0].payload).NeedMore?
    requires var seen' := seen + rs[0].payload;
             Agrees(Peek(Wire(rs[1..]) + rest, seen', budget - 1), Assess(seen' + Stream(rs[1..])), |Wire(rs[1..])|)
    ensures Agrees(Peek(Wire(rs) + rest, seen, budget), Assess(seen + Stream(rs)), |Wire(rs)|)
  {
    PeekWire(rs, seen, rest, budget);
  }

  lemma {:induction false} SomeRecord(rs: seq<Record>, seen: Payload)
    requires Assess(seen).NeedMore? && !Assess(seen + Stream(rs)).NeedMore?
    ensures |rs| > 0
  {
    assert |rs| == 0 ==> seen + Stream(rs) == seen;
  }

  lemma {:induction false} OthersDecide(rs: seq<Record>, seen: Payload)
    requires RecordsOk(rs) && |rs| > 0 && !Assess(seen + Stream(rs)).NeedMore?
    ensures RecordsOk(rs[1..]) && !Assess(seen + rs[0].payload + Stream(rs[1..])).NeedMore?
  {
    assert seen + Stream(rs) == seen + rs[0].payload + Stream(rs[1..]);
  }

  /** If the records' bytes decide, that is what is read from them, whatever follows. */
  lemma {:induction false} RecordsDecide(rs: seq<Record>, seen: Payload, rest: Payload, budget: nat)
    requires RecordsOk(rs) && |rs| <= budget && Assess(seen).NeedMore? && !Assess(seen + Stream(rs)).NeedMore?
    ensures Agrees(Peek(Wire(rs) + rest, seen, budget), Assess(seen + Stream(rs)), |Wire(rs)|)
    decreases |rs|, 1
  {
    SomeRecord(rs, seen);
    if Assess(seen + rs[0].payload).NeedMore? {
      LaterRecordsDecide(rs, seen, rest, budget);
    } else {
      DecidedByFirst(rs, seen, rest, budget);
    }
  }

  lemma {:induction false} LaterRecordsDecide(rs: seq<Record>, seen: Payload, rest: Payload, budget: nat)
    requires RecordsOk(rs) && 0 < |rs| <= budget
    requires Assess(seen + rs[0].payload).NeedMore? && !Assess(seen + Stream(rs)).NeedMore?
    ensures Agrees(Peek(Wire(rs) + rest, seen, budget), Assess(seen + Stream(rs)), |Wire(rs)|)
    decreases |rs|, 0
  {
    OthersDecide(rs, seen);
    RecordsDecide(rs[1..], seen + rs[0].payload, rest, budget - 1);
    DecidedByOthers(rs, seen, rest, budget);
  }

  /** Two splits of the same handshake bytes into at most 64 records each give the same result,
      whatever follows them. */
  lemma {:induction false} FragmentationIrrelevant(a: seq<Record>, b: seq<Record>, restA: Payload, restB: Payload)
    requires RecordsOk(a) && RecordsOk(b) && |a| <= MAX_RECORDS && |b| <= MAX_RECORDS
    requires Stream(a) == Stream(b) && !Assess(Stream(a)).NeedMore?
    ensures var p, q := Peek(Wire(a) + restA, [], MAX_RECORDS), Peek(Wire(b) + restB, [], MAX_RECORDS);
            p.Hello? == q.Hello? == Assess(Stream(a)).Complete? && (p.Hello? ==> p.handshake == q.handshake)
  {
    assert [] + Stream(a) == Stream(a);
    RecordsDecide(a, [], restA, MAX_RECORDS);
    RecordsDecide(b, [], restB, MAX_RECORDS);
  }

  /** `rs` are the records up to the one that completes the handshake. */
  predicate Carries(rs: seq<Record>, seen: Payload, handshake: Payload) {
    && RecordsOk(rs) && |rs| > 0 && Assess(seen + Stream(rs)) == Complete(handshake)
    && Assess(seen + Stream(rs[..|rs| - 1])).NeedMore?
  }

  /** What is read came in at most `budget` well-formed records, and none was read beyond the one
      that completes it. */
  lemma {:induction false} HelloCameInRecords(input: Payload, seen: Payload, budget: nat) returns (rs: seq<Record>)
    requires Peek(input, seen, budget).Hello? && Assess(seen).NeedMore?
    ensures var p := Peek(input, seen, budget);
            |rs| <= budget && Carries(rs, seen, p.handshake) && p.used <= |input| && input[..p.used] == Wire(rs)
    decreases budget
  {
    var r := Next(input);
    var n := 5 + |r.payload|;
    OneOfNext(input);
    if Assess(seen + r.payload).NeedMore? {
      var others := HelloCameInRecords(input[n..], seen + r.payload, budget - 1);
      rs := [r] + others;
      WireCons(r, others, seen);
      WireCons(r, others[..|others| - 1], seen);
      assert rs[..|rs| - 1] == [r] + others[..|others| - 1];
    } else {
      rs := [r];
      WireCons(r, rs[..0], seen);
      assert rs == [r] + rs[..0];
      assert seen + Stream(rs[..0]) == seen;
    }
  }

  lemma {:induction false} WireCons(r: Record, rs: seq<Record>, seen: Payload)
    requires RecordOk(r) && RecordsOk(rs)
    ensures RecordsOk([r] + rs) && Wire([r] + rs) == One(r) + Wire(rs)
    ensures seen + Stream([r] + rs) == seen + r.payload + Stream(rs)
  {
    assert ([r] + rs)[1..] == rs;
  }
}
