/** Reading the server name from a ClientHello (go/internal/sniproxy/sniproxy.go). Letters are
    lower-cased as ASCII; case folding beyond ASCII is not modelled. */
module Sni {
  import opened Bytes
  import opened Tlv

  datatype Sni = Bad | NoSni | Found(name: Payload)

  // ---- The message (section 4.1.2 of RFC 8446, section 3 of RFC 6066) ----

  datatype Ext = Other(tag: Payload, data: Payload) | ServerName(names: seq<Item>)

  /** The extensions; or, in old hellos, nothing (or one stray byte) after the compressions. */
  datatype Tail = Bare(stray: Payload) | Extensions(exts: seq<Ext>)

  /** `start` is version and random. */
  datatype Hello = Hello(start: Payload, session: Payload, ciphers: Payload, compressions: Payload, tail: Tail)

  predicate ExtOk(e: Ext) {
    match e
    case Other(tag, data) => |tag| == 2 && tag != [0, 0] && |data| < 65536
    case ServerName(names) => |names| > 0 && AllOk(1, names) && |Encode(1, names)| < 65534
  }

  predicate ExtsWellformed(exts: seq<Ext>) {
    forall i :: 0 <= i < |exts| ==> ExtOk(exts[i])
  }

  function ExtItem(e: Ext): (x: Item)
    requires ExtOk(e)
    ensures ItemOk(2, x)
  {
    match e
    case Other(tag, data) => Item(tag, data)
    case ServerName(names) => Item([0, 0], Be16(|Encode(1, names)|) + Encode(1, names))
  }

  function EncodeExts(exts: seq<Ext>): Payload
    requires ExtsWellformed(exts)
  {
    if |exts| == 0 then [] else One(ExtItem(exts[0])) + EncodeExts(exts[1..])
  }

  predicate TailOk(t: Tail) {
    match t
    case Bare(stray) => |stray| <= 1
    case Extensions(exts) => ExtsWellformed(exts) && |EncodeExts(exts)| < 65536
  }

  function EncodeTail(t: Tail): Payload
    requires TailOk(t)
  {
    match t
    case Bare(stray) => stray
    case Extensions(exts) => Be16(|EncodeExts(exts)|) + EncodeExts(exts)
  }

  function Vec8(v: Payload): Payload
    requires |v| < 256
  {
    [|v|] + v
  }

  function Vec16(v: Payload): Payload
    requires |v| < 65536
  {
    Be16(|v|) + v
  }

  predicate FieldsOk(h: Hello) {
    |h.session| < 256 && |h.ciphers| < 65536 && |h.compressions| < 256 && TailOk(h.tail)
  }

  predicate HelloOk(h: Hello) {
    |h.start| == 34 && FieldsOk(h) && |Body(h)| < 0x100_0000
  }

  function Body(h: Hello): Payload
    requires FieldsOk(h)
  {
    h.start + Fields(h)
  }

  function Fields(h: Hello): Payload
    requires FieldsOk(h)
  {
    Vec8(h.session) + (Vec16(h.ciphers) + (Vec8(h.compressions) + EncodeTail(h.tail)))
  }

  function Be24(n: nat): (b: Payload)
    requires n < 0x100_0000
    ensures |b| == 3 && U24(b) == n
  {
    [n / 65536] + Be16(n % 65536)
  }

  function U24(b: Payload): nat
    requires |b| == 3
  {
    65536 * (b[0] as int) + U16(b[1..])
  }

  /** The handshake message: type, length, body. */
  function Message(h: Hello): Payload
    requires HelloOk(h)
  {
    [0x01] + Be24(|Body(h)|) + Body(h)
  }

  // ---- What it names ----

  function Hosts(names: seq<Item>): seq<Payload> {
    if |names| == 0 then []
    else (if names[0].tag == [0] then [names[0].value] else []) + Hosts(names[1..])
  }

  function HostsOf(exts: seq<Ext>): seq<Payload> {
    if |exts| == 0 then []
    else (if exts[0].ServerName? then Hosts(exts[0].names) else []) + HostsOf(exts[1..])
  }

  predicate Good(host: Payload) {
    |host| > 0 && 0 !in host
  }

  /** At most one host name, which is not empty and has no NUL. */
  predicate Single(hosts: seq<Payload>) {
    |hosts| <= 1 && forall i :: 0 <= i < |hosts| ==> Good(hosts[i])
  }

  function LowerByte(b: Byte): Byte {
    if 65 <= b <= 90 then b + 32 else b
  }

  function Lower(s: Payload): (r: Payload)
    ensures |r| == |s|
  {
    seq(|s|, i requires 0 <= i < |s| => LowerByte(s[i]))
  }

  /** The name found so far; empty if none. */
  function NameOf(hosts: seq<Payload>): Payload {
    if |hosts| == 0 then [] else Lower(hosts[0])
  }

  function Verdict(hosts: seq<Payload>): Sni {
    if !Single(hosts) then Bad else if |hosts| == 0 then NoSni else Found(Lower(hosts[0]))
  }

  function Meaning(h: Hello): Sni {
    match h.tail
    case Bare(_) => NoSni
    case Extensions(exts) => Verdict(HostsOf(exts))
  }

  // ---- Parsing the extensions ----

  /** The value of a server_name extension: a list of names, with its length. */
  predicate ListOk(v: Payload) {
    |v| > 2 && U16(v[..2]) == |v| - 2 && Splits(1, v[2..])
  }

  predicate ItemIsExt(x: Item) {
    x.tag == [0, 0] ==> ListOk(x.value)
  }

  function ToExt(x: Item): (e: Ext)
    requires ItemOk(2, x) && ItemIsExt(x)
  {
    if x.tag == [0, 0] then ServerName(Items(1, x.value[2..])) else Other(x.tag, x.value)
  }

  predicate ExtsOk(b: Payload)
    decreases |b|
  {
    |b| == 0 || (HasItem(2, b) && ItemIsExt(First(2, b)) && ExtsOk(Rest(2, b)))
  }

  function Exts(b: Payload): seq<Ext>
    requires ExtsOk(b)
    decreases |b|
  {
    if |b| == 0 then [] else [ToExt(First(2, b))] + Exts(Rest(2, b))
  }

  lemma {:induction false} ItemOfExt(e: Ext)
    requires ExtOk(e)
    ensures ItemIsExt(ExtItem(e)) && ToExt(ExtItem(e)) == e
  {
    if e.ServerName? {
      var list := Encode(1, e.names);
      EncodingSplits(1, e.names);
      NonemptyEncoding(e.names);
      var v := ExtItem(e).value;
      assert v[..2] == Be16(|list|) && v[2..] == list;
    }
  }

  lemma {:induction false} NonemptyEncoding(names: seq<Item>)
    requires AllOk(1, names) && |names| > 0
    ensures |Encode(1, names)| > 0
  {
  }

  lemma {:induction false} ExtOfItem(x: Item)
    requires ItemOk(2, x) && ItemIsExt(x)
    ensures ExtOk(ToExt(x)) && ExtItem(ToExt(x)) == x
  {
    if x.tag == [0, 0] {
      var list := x.value[2..];
      ItemsEncode(1, list);
      Be16Inverse(x.value[..2]);
      assert x.value == x.value[..2] + list;
      assert |Items(1, list)| > 0;
    }
  }

  lemma {:induction false} ExtsOfEncoding(exts: seq<Ext>)
    requires ExtsWellformed(exts)
    ensures ExtsOk(EncodeExts(exts)) && Exts(EncodeExts(exts)) == exts
    decreases |exts|
  {
    if |exts| > 0 {
      ExtsOfEncoding(exts[1..]);
      ExtsCons(exts[0], EncodeExts(exts[1..]));
      assert exts == [exts[0]] + exts[1..];
    }
  }

  lemma {:induction false} ExtsCons(e: Ext, rest: Payload)
    requires ExtOk(e) && ExtsOk(rest)
    ensures var b := One(ExtItem(e)) + rest; ExtsOk(b) && Exts(b) == [e] + Exts(rest)
  {
    ItemOfExt(e);
    FirstOfOne(2, ExtItem(e), rest);
  }

  lemma {:induction false} EncodingOfExts(b: Payload)
    requires ExtsOk(b)
    ensures ExtsWellformed(Exts(b)) && EncodeExts(Exts(b)) == b
    decreases |b|
  {
    if |b| > 0 {
      EncodingOfExts(Rest(2, b));
      ExtOfItem(First(2, b));
      OneOfFirst(2, b);
      var exts := Exts(b);
      assert exts[1..] == Exts(Rest(2, b)) && exts[0] == ToExt(First(2, b));
    }
  }

  function Judge(b: Payload): Sni {
    if !ExtsOk(b) then Bad else Verdict(HostsOf(Exts(b)))
  }

  // ---- The loops of parseSNI ----

  lemma {:induction false} SinglePrefix(a: seq<Payload>, b: seq<Payload>)
    requires Single(a + b)
    ensures Single(a)
  {
    forall i | 0 <= i < |a|
      ensures Good(a[i])
    {
      assert (a + b)[i] == a[i];
    }
  }

  lemma {:induction false} NextName(done: seq<Payload>, list: Payload)
    requires HasItem(1, list)
    ensures var x := First(1, list);
            var done' := if x.tag == [0] then done + [x.value] else done;
            Splits(1, list) ==> done + Hosts(Items(1, list)) == done' + Hosts(Items(1, Rest(1, list)))
  {
    if Splits(1, list) {
      var items := Items(1, list);
      assert items[1..] == Items(1, Rest(1, list)) && items[0] == First(1, list);
    }
  }

  /** What the loop has to conclude: the whole list is well-formed and gives at most one host. */
  predicate NamesFit(done: seq<Payload>, list: Payload) {
    Splits(1, list) && Single(done + Hosts(Items(1, list)))
  }

  lemma {:induction false} NamesStep(done: seq<Payload>, list: Payload)
    requires HasItem(1, list)
    ensures var x := First(1, list);
            var done' := if x.tag == [0] then done + [x.value] else done;
            && (NamesFit(done, list) <==> NamesFit(done', Rest(1, list)))
            && (Splits(1, list) ==> done + Hosts(Items(1, list)) == done' + Hosts(Items(1, Rest(1, list))))
            && (NamesFit(done, list) ==> Single(done'))
  {
    NextName(done, list);
    var x := First(1, list);
    var done' := if x.tag == [0] then done + [x.value] else done;
    if NamesFit(done, list) {
      SinglePrefix(done', Hosts(Items(1, Rest(1, list))));
    }
  }

  lemma {:induction false} OneMoreHost(done: seq<Payload>, host: Payload)
    requires Single(done)
    ensures Single(done + [host]) <==> Good(host) && |done| == 0
    ensures |done| == 0 ==> NameOf(done + [host]) == Lower(host)
  {
    assert (done + [host])[|done|] == host;
    if Good(host) && |done| == 0 {
      assert done + [host] == [host];
    }
  }

  /** The loop over the names of one server_name extension. */
  method ScanNames(names: Payload, serverName: Payload, ghost done: seq<Payload>) returns (ok: bool, found: Payload)
    requires Single(done) && serverName == NameOf(done)
    ensures ok <==> NamesFit(done, names)
    ensures ok ==> found == NameOf(done + Hosts(Items(1, names)))
  {
    var list := names;
    found := serverName;
    ghost var sofar := done;
    while |list| > 0
      invariant Single(sofar) && found == NameOf(sofar)
      invariant NamesFit(done, names) <==> NamesFit(sofar, list)
      invariant Splits(1, names) == Splits(1, list)
      invariant Splits(1, names) ==> done + Hosts(Items(1, names)) == sofar + Hosts(Items(1, list))
      decreases |list|
    {
      if |list| < 3 || 3 + U16(list[1..3]) > |list| {
        return false, found;
      }
      NamesStep(sofar, list);
      var x := First(1, list);
      if x.tag[0] == 0 {
        assert x.tag == [0];
        OneMoreHost(sofar, x.value);
        if !Good(x.value) || found != [] {
          return false, found;
        }
        found := Lower(x.value);
        sofar := sofar + [x.value];
      }
      list := Rest(1, list);
    }
    assert sofar + Hosts(Items(1, list)) == sofar;
    ok := true;
  }

  predicate ExtsFit(done: seq<Payload>, b: Payload) {
    ExtsOk(b) && Single(done + HostsOf(Exts(b)))
  }

  lemma {:induction false} ExtsStep(done: seq<Payload>, b: Payload, more: seq<Payload>)
    requires HasItem(2, b) && ItemIsExt(First(2, b))
    requires var e := ToExt(First(2, b)); more == if e.ServerName? then Hosts(e.names) else []
    ensures ExtsOk(b) == ExtsOk(Rest(2, b))
    ensures ExtsOk(b) ==> done + HostsOf(Exts(b)) == done + more + HostsOf(Exts(Rest(2, b)))
    ensures ExtsFit(done, b) <==> ExtsFit(done + more, Rest(2, b))
    ensures ExtsFit(done, b) ==> Single(done + more)
  {
    if ExtsOk(b) {
      HostsOfFirst(b, more);
      var rest := HostsOf(Exts(Rest(2, b)));
      assert done + (more + rest) == done + more + rest;
      if Single(done + more + rest) {
        SinglePrefix(done + more, rest);
      }
    }
  }

  lemma {:induction false} HostsOfFirst(b: Payload, more: seq<Payload>)
    requires |b| > 0 && ExtsOk(b)
    requires var e := ToExt(First(2, b)); more == if e.ServerName? then Hosts(e.names) else []
    ensures HostsOf(Exts(b)) == more + HostsOf(Exts(Rest(2, b)))
  {
    var exts := Exts(b);
    assert exts[1..] == Exts(Rest(2, b)) && exts[0] == ToExt(First(2, b));
  }

  /** The value of a server_name extension, checked and scanned. */
  method ScanList(data: Payload, serverName: Payload, ghost done: seq<Payload>) returns (ok: bool, found: Payload)
    requires Single(done) && serverName == NameOf(done)
    ensures ok <==> ListOk(data) && Single(done + Hosts(Items(1, data[2..])))
    ensures ok ==> found == NameOf(done + Hosts(Items(1, data[2..])))
  {
    if |data| < 2 {
      return false, serverName;
    }
    var listLen := U16(data[..2]);
    if listLen == 0 || listLen + 2 != |data| {
      return false, serverName;
    }
    ok, found := ScanNames(data[2..], serverName, done);
  }

  /** The loop over the extensions. */
  method ScanExtensions(exts: Payload) returns (r: Sni)
    ensures r == Judge(exts)
  {
    var ext, serverName := exts, [];
    ghost var done: seq<Payload> := [];
    while |ext| >= 4
      invariant Single(done) && serverName == NameOf(done)
      invariant ExtsOk(exts) == ExtsOk(ext)
      invariant ExtsOk(exts) ==> HostsOf(Exts(exts)) == done + HostsOf(Exts(ext))
      decreases |ext|
    {
      if 4 + U16(ext[2..4]) > |ext| {
        return Bad;
      }
      var x := First(2, ext);
      ghost var more := if ItemIsExt(x) && x.tag == [0, 0] then Hosts(Items(1, x.value[2..])) else [];
      if ItemIsExt(x) {
        ExtsStep(done, ext, more);
      }
      ext := Rest(2, ext);
      if x.tag == [0, 0] {
        var ok;
        ok, serverName := ScanList(x.value, serverName, done);
        if !ok {
          return Bad;
        }
      }
      done := done + more;
    }
    if |ext| != 0 {
      return Bad;
    }
    assert done + HostsOf(Exts(ext)) == done;
    if |serverName| != 0 {
      return Found(serverName);
    }
    return NoSni;
  }

  // ---- The fields before the extensions ----

  predicate HasVec8(p: Payload) {
    |p| >= 1 && 1 + p[0] <= |p|
  }

  predicate HasVec16(p: Payload) {
    |p| >= 2 && 2 + U16(p[..2]) <= |p|
  }

  function After8(p: Payload): Payload
    requires HasVec8(p)
  {
    p[1 + p[0]..]
  }

  function After16(p: Payload): Payload
    requires HasVec16(p)
  {
    p[2 + U16(p[..2])..]
  }

  function ParseTail(p: Payload): Sni {
    if |p| < 2 then NoSni
    else if U16(p[..2]) != |p| - 2 then Bad
    else Judge(p[2..])
  }

  function ParseFields(p: Payload): Sni {
    if !HasVec8(p) then Bad
    else
      var p := After8(p);
      if !HasVec16(p) then Bad
      else
        var p := After16(p);
        if !HasVec8(p) then Bad else ParseTail(After8(p))
  }

  function Parse(body: Payload): Sni {
    if |body| < 4 || body[0] != 1 || U24(body[1..4]) + 4 != |body| || |body| < 4 + 35 then Bad
    else ParseFields(body[38..])
  }

  method ParseSNI(body: Payload) returns (r: Sni)
    ensures r == Parse(body)
  {
    if |body| < 4 || body[0] != 1 || U24(body[1..4]) + 4 != |body| || |body| < 4 + 35 {
      return Bad;
    }
    var p := body[38..];
    if !HasVec8(p) {
      return Bad;
    }
    p := After8(p);
    if !HasVec16(p) {
      return Bad;
    }
    p := After16(p);
    if !HasVec8(p) {
      return Bad;
    }
    p := After8(p);
    if |p| < 2 {
      return NoSni;
    }
    if U16(p[..2]) != |p| - 2 {
      return Bad;
    }
    r := ScanExtensions(p[2..]);
  }

  // ---- Parsing is what the message means ----

  lemma {:induction false} ReadVec8(v: Payload, rest: Payload)
    requires |v| < 256
    ensures HasVec8(Vec8(v) + rest) && After8(Vec8(v) + rest) == rest
  {
  }

  lemma {:induction false} ReadVec16(v: Payload, rest: Payload)
    requires |v| < 65536
    ensures HasVec16(Vec16(v) + rest) && After16(Vec16(v) + rest) == rest
  {
    assert (Vec16(v) + rest)[..2] == Be16(|v|);
  }

  lemma {:induction false} ParsesTail(t: Tail, h: Hello)
    requires TailOk(t) && h.tail == t
    ensures ParseTail(EncodeTail(t)) == Meaning(h)
  {
    if t.Extensions? {
      ExtsOfEncoding(t.exts);
      assert EncodeTail(t)[..2] == Be16(|EncodeExts(t.exts)|) && EncodeTail(t)[2..] == EncodeExts(t.exts);
    }
  }

  lemma {:induction false} ParsesFields(h: Hello)
    requires FieldsOk(h)
    ensures ParseFields(Fields(h)) == Meaning(h)
  {
    var t := EncodeTail(h.tail);
    var c := Vec8(h.compressions) + t;
    ReadVec8(h.session, Vec16(h.ciphers) + c);
    ReadVec16(h.ciphers, c);
    ReadVec8(h.compressions, t);
    ParsesTail(h.tail, h);
  }

  lemma {:induction false} MessageParts(h: Hello)
    requires HelloOk(h)
    ensures var m := Message(h);
            |m| >= 39 && m[0] == 1 && U24(m[1..4]) + 4 == |m| && m[38..] == Fields(h)
  {
    var m := Message(h);
    assert m[1..4] == Be24(|Body(h)|);
    assert m[4..] == Body(h);
    assert m[38..] == m[4..][34..];
    assert Body(h)[34..] == Fields(h);
  }

  /** Every well-formed hello parses to the name it carries: its one host name in lower case, none,
      or an error if there are several, an empty one or one with a NUL. */
  lemma {:induction false} ParseIsMeaning(h: Hello)
    requires HelloOk(h)
    ensures Parse(Message(h)) == Meaning(h)
  {
    MessageParts(h);
    ParsesFields(h);
  }

  lemma {:induction false} WholeVec8(p: Payload)
    requires HasVec8(p)
    ensures exists v :: |v| < 256 && p == Vec8(v) + After8(p)
  {
    var v := p[1..1 + p[0]];
    assert p == Vec8(v) + After8(p);
  }

  lemma {:induction false} WholeVec16(p: Payload)
    requires HasVec16(p)
    ensures exists v :: |v| < 65536 && p == Vec16(v) + After16(p)
  {
    Be16Inverse(p[..2]);
    var v := p[2..2 + U16(p[..2])];
    assert p == Vec16(v) + After16(p);
  }

  lemma {:induction false} WholeTail(p: Payload) returns (t: Tail)
    requires !ParseTail(p).Bad?
    ensures TailOk(t) && EncodeTail(t) == p
  {
    if |p| < 2 {
      t := Bare(p);
    } else {
      EncodingOfExts(p[2..]);
      Be16Inverse(p[..2]);
      t := Extensions(Exts(p[2..]));
      assert p == p[..2] + p[2..];
    }
  }

  /** Nothing else parses: what is not refused is the encoding of some well-formed hello. */
  lemma {:induction false} OnlyHellosParse(body: Payload) returns (h: Hello)
    requires !Parse(body).Bad?
    ensures HelloOk(h) && body == Message(h)
  {
    h := WholeFields(body[4..38], body[38..]);
    WholeMessage(body, h);
  }

  lemma {:induction false} WholeFields(start: Payload, a: Payload) returns (h: Hello)
    requires !ParseFields(a).Bad?
    ensures h.start == start && FieldsOk(h)
    ensures Fields(h) == a
  {
    WholeVec8(a);
    var session :| |session| < 256 && a == Vec8(session) + After8(a);
    var b := After8(a);
    WholeVec16(b);
    var ciphers :| |ciphers| < 65536 && b == Vec16(ciphers) + After16(b);
    var c := After16(b);
    WholeVec8(c);
    var compressions :| |compressions| < 256 && c == Vec8(compressions) + After8(c);
    var tail := WholeTail(After8(c));
    h := Hello(start, session, ciphers, compressions, tail);
  }

  lemma {:induction false} Be24Inverse(b: Payload)
    requires |b| == 3
    ensures U24(b) < 0x100_0000 && Be24(U24(b)) == b
  {
    Be16Inverse(b[1..]);
    assert b == [b[0]] + b[1..];
  }

  lemma {:induction false} WholeMessage(body: Payload, h: Hello)
    requires |body| >= 38 && body[0] == 1 && U24(body[1..4]) + 4 == |body|
    requires FieldsOk(h)
    requires h.start == body[4..38] && Fields(h) == body[38..]
    ensures HelloOk(h) && body == Message(h)
  {
    assert body[4..] == body[4..38] + body[38..];
    Be24Inverse(body[1..4]);
    assert body == body[..1] + body[1..4] + body[4..];
    assert body[..1] == [0x01];
  }
}
