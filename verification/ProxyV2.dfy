/** PROXY protocol v2 headers (go/internal/proxyproto/proxyproto.go). Addresses in text form are
    parsed by a library; this model starts from what that parser returns. */
module ProxyV2 {
  import opened Bytes
  import opened Tlv

  const MAX_PAYLOAD := 4096

  function Signature(): Payload {
    [0x0d, 0x0a, 0x0d, 0x0a, 0x00, 0x0d, 0x0a, 0x51, 0x55, 0x49, 0x54, 0x0a]
  }

  /** An IP address without zone: four or sixteen bytes. */
  type Addr = b: Payload | |b| == 4 || |b| == 16 witness [0, 0, 0, 0]

  datatype Endpoint = Endpoint(addr: Addr, port: nat)

  function Zeros(n: nat): (b: Payload)
    ensures |b| == n
  {
    if n == 0 then [] else Zeros(n - 1) + [0]
  }

  predicate Unspecified(a: Addr) {
    forall i :: 0 <= i < |a| ==> a[i] == 0
  }

  /** ::ffff:0:0/96. */
  predicate Mapped(a: Addr) {
    |a| == 16 && (forall i :: 0 <= i < 10 ==> a[i] == 0) && a[10] == 255 && a[11] == 255
  }

  function Unmap(a: Addr): Addr {
    if Mapped(a) then a[12..] else a
  }

  // ---- Writing ----

  /** An address as text: what the library makes of its host and port, if anything. */
  datatype Text = Malformed | HostPort(addr: Addr, port: nat)

  /** parseAddress refuses port zero and unmaps the address. */
  predicate Parses(t: Text) {
    t.HostPort? && 0 < t.port < 65536
  }

  function ParseAddress(t: Text): (e: Endpoint)
    requires Parses(t)
    ensures !Mapped(e.addr) && 0 < e.port < 65536
  {
    Endpoint(Unmap(t.addr), t.port)
  }

  /** The destination as it is written: the unspecified address if the families differ. */
  function Normalised(destination: Addr, source: Addr): Addr {
    if |destination| != |source| then Zeros(|source|) else destination
  }

  function Addresses(s: Endpoint, d: Endpoint): Payload
    requires s.port < 65536 && d.port < 65536
  {
    s.addr + d.addr + Be16(s.port) + Be16(d.port)
  }

  function Family(a: Addr): Byte {
    if |a| == 4 then 0x11 else 0x21
  }

  predicate Same(s: Endpoint, d: Endpoint) {
    |s.addr| == |d.addr| && s.port < 65536 && d.port < 65536
  }

  predicate Fits(s: Endpoint, items: seq<Item>) {
    AllOk(1, items) && 2 * |s.addr| + 4 + |Encode(1, items)| <= MAX_PAYLOAD
  }

  /** The bytes of section 2.2 of the PROXY protocol specification, with a list of TLVs. */
  function Wire(s: Endpoint, d: Endpoint, items: seq<Item>): Payload
    requires Same(s, d) && Fits(s, items)
  {
    Signature() + [0x21, Family(s.addr)] + Be16(2 * |s.addr| + 4 + |Encode(1, items)|)
    + (Addresses(s, d) + Encode(1, items))
  }

  /** `copy(dst[at:], src)`. */
  method Copy(dst: array<Byte>, at: nat, src: Payload)
    requires at + |src| <= dst.Length
    modifies dst
    ensures dst[..at + |src|] == old(dst[..at]) + src
    ensures dst[at + |src|..] == old(dst[at + |src|..])
  {
    for i := 0 to |src|
      invariant dst[at..at + i] == src[..i]
      invariant dst[..at] == old(dst[..at]) && dst[at + i..] == old(dst[at + i..])
    {
      dst[at + i] := src[i];
      assert dst[at..at + i + 1] == dst[at..at + i] + [src[i]];
    }
  }

  /** The fixed part and the addresses, at the offsets the source uses. */
  method Fill(s: Endpoint, d: Endpoint) returns (b: array<Byte>)
    requires Same(s, d)
    ensures fresh(b)
    ensures b[..] == Signature() + [0x21, Family(s.addr)] + Be16(2 * |s.addr| + 4) + Addresses(s, d)
  {
    var n := |s.addr|;
    b := new Byte[20 + 2 * n](_ => 0);
    Copy(b, 0, Signature());
    Copy(b, 12, [0x21, Family(s.addr)]);
    Copy(b, 14, Be16(2 * n + 4));
    FillAddresses(b, s, d);
  }

  method FillAddresses(b: array<Byte>, s: Endpoint, d: Endpoint)
    requires Same(s, d) && b.Length == 20 + 2 * |s.addr|
    modifies b
    ensures b[..] == old(b[..16]) + Addresses(s, d)
  {
    var n := |s.addr|;
    Copy(b, 16, s.addr);
    Copy(b, 16 + n, d.addr);
    Copy(b, 16 + 2 * n, Be16(s.port));
    Copy(b, 18 + 2 * n, Be16(d.port));
  }

  /** What V2 writes, for a source and a destination. */
  function Sent(s: Endpoint, d: Endpoint): Endpoint {
    Endpoint(Normalised(d.addr, s.addr), d.port)
  }

  /** V2: an error, also for a source that is unspecified, or else the header without TLVs. */
  method V2(source: Text, destination: Text) returns (ok: bool, header: Payload)
    ensures ok <==> Parses(source) && Parses(destination) && !Unspecified(ParseAddress(source).addr)
    ensures ok ==> var s, d := ParseAddress(source), ParseAddress(destination); header == Wire(s, Sent(s, d), [])
  {
    if !Parses(source) || !Parses(destination) {
      return false, [];
    }
    var s, d := ParseAddress(source), ParseAddress(destination);
    if Unspecified(s.addr) {
      return false, [];
    }
    var to := d.addr;
    if |to| != |s.addr| || Unspecified(to) {
      to := Zeros(|s.addr|);
      UnspecifiedIsZeros(to, Normalised(d.addr, s.addr));
    }
    var b := Fill(s, Endpoint(to, d.port));
    return true, b[..];
  }

  lemma {:induction false} ZerosAreZero(n: nat)
    ensures forall i :: 0 <= i < n ==> Zeros(n)[i] == 0
  {
    if n > 0 {
      ZerosAreZero(n - 1);
    }
  }

  lemma {:induction false} UnspecifiedIsZeros(a: Addr, b: Addr)
    requires |a| == |b| && a == Zeros(|a|) && (b == Zeros(|b|) || Unspecified(b))
    ensures a == b
  {
    ZerosAreZero(|a|);
  }

  // ---- Reading ----

  datatype Header = Invalid | Header(source: Endpoint, destination: Endpoint, rest: Payload)

  /** v2AddressLength, zero for what is not supported. */
  function AddressLength(family: Byte): nat {
    if family == 0x11 then 12 else if family == 0x21 then 36 else 0
  }

  function Sixteen(b: Payload, at: nat): nat
    requires at + 2 <= |b|
  {
    U16(b[at..at + 2])
  }

  function ReadV2Header(input: Payload): Header {
    if |input| < 16 || input[..12] != Signature() then Invalid
    else if input[12] as int / 16 != 2 || input[12] as int % 16 != 1 then Invalid
    else if AddressLength(input[13]) == 0 then Invalid
    else
      var n, length := AddressLength(input[13]), Sixteen(input, 14);
      if length > MAX_PAYLOAD || length < n || |input| < 16 + length then Invalid
      else Payloads(n, input[16..16 + length], input[16 + length..])
  }

  /** The rest of readV2Header, once the payload was read. */
  function Payloads(n: nat, payload: Payload, rest: Payload): Header
    requires (n == 12 || n == 36) && n <= |payload|
  {
    var w := (n - 4) / 2;
    var source, destination: Addr := payload[..w], payload[w..2 * w];
    var sourcePort := Sixteen(payload, n - 4);
    if !Splits(1, payload[n..]) || Unspecified(Unmap(source)) || sourcePort == 0 then Invalid
    else Header(Endpoint(source, sourcePort), Endpoint(destination, Sixteen(payload, n - 2)), rest)
  }

  /** validateV2TLVs accepts exactly the encodings of TLV lists. */
  method ValidateV2TLVs(tlvs: Payload) returns (ok: bool)
    ensures ok <==> IsEncoding(1, tlvs)
  {
    SplitsIffEncoding(1, tlvs);
    var left := tlvs;
    while |left| != 0
      invariant Splits(1, tlvs) <==> Splits(1, left)
      decreases |left|
    {
      if |left| < 3 {
        return false;
      }
      var length := U16(left[1..3]);
      ghost var was := left;
      left := left[3..];
      if length > |left| {
        return false;
      }
      left := left[length..];
      assert left == Rest(1, was);
    }
    ok := true;
  }

  // ---- Round trips ----

  predicate Acceptable(s: Endpoint) {
    !Unspecified(Unmap(s.addr)) && s.port > 0
  }

  lemma {:induction false} PayloadParts(s: Endpoint, d: Endpoint, tlvs: Payload)
    requires Same(s, d)
    ensures var p, w := Addresses(s, d) + tlvs, |s.addr|;
            && |p| == 2 * w + 4 + |tlvs| && p[..w] == s.addr && p[w..2 * w] == d.addr
            && p[2 * w..2 * w + 2] == Be16(s.port) && p[2 * w + 2..2 * w + 4] == Be16(d.port) && p[2 * w + 4..] == tlvs
  {
  }

  lemma {:induction false} FixedParts(a: Payload, family: Byte, length: nat, payload: Payload, rest: Payload)
    requires |a| == 12 && length < 65536 && |payload| == length
    ensures var b := a + [0x21, family] + Be16(length) + payload + rest;
            && |b| == 16 + length + |rest| && b[..12] == a && b[12] == 0x21 && b[13] == family
               && Sixteen(b, 14) == length
            && b[16..16 + length] == payload && b[16 + length..] == rest
  {
    var b := a + [0x21, family] + Be16(length) + payload + rest;
    assert b[14..16] == Be16(length);
  }

  /** Reading a header with any TLV list within the limit gives back both endpoints and leaves
      exactly what follows, unless the source is unusable. */
  lemma {:induction false} ReadsBack(s: Endpoint, d: Endpoint, items: seq<Item>, rest: Payload)
    requires Same(s, d) && Fits(s, items)
    ensures ReadV2Header(Wire(s, d, items) + rest) == if Acceptable(s) then Header(s, d, rest) else Invalid
  {
    var tlvs := Encode(1, items);
    var payload := Addresses(s, d) + tlvs;
    EncodingSplits(1, items);
    PayloadParts(s, d, tlvs);
    FixedParts(Signature(), Family(s.addr), |payload|, payload, rest);
  }

  /** What V2 writes reads back as the source and the normalised destination. */
  lemma {:induction false} V2ReadsBack(source: Text, destination: Text, rest: Payload)
    requires Parses(source) && Parses(destination) && !Unspecified(ParseAddress(source).addr)
    ensures var s, d := ParseAddress(source), ParseAddress(destination);
            ReadV2Header(Wire(s, Sent(s, d), []) + rest) == Header(s, Sent(s, d), rest)
  {
    var s, d := ParseAddress(source), ParseAddress(destination);
    ReadsBack(s, Sent(s, d), [], rest);
  }

  lemma {:induction false} TwoParts(p: Payload, i: nat, j: nat)
    requires i <= j <= |p|
    ensures p[i..] == p[i..j] + p[j..]
  {
  }

  lemma {:induction false} FiveParts(p: Payload, i: nat, j: nat, k: nat, l: nat)
    requires i <= j <= k <= l <= |p|
    ensures p == p[..i] + p[i..j] + p[j..k] + p[k..l] + p[l..]
  {
    TwoParts(p, k, l);
    TwoParts(p, j, k);
    TwoParts(p, i, j);
    assert p == p[..i] + p[i..];
    assert p[..i] + (p[i..j] + (p[j..k] + (p[k..l] + p[l..])))
        == p[..i] + p[i..j] + p[j..k] + p[k..l] + p[l..];
  }

  lemma {:induction false} WholePayload(n: nat, p: Payload, s: Endpoint, d: Endpoint)
    requires (n == 12 || n == 36) && n <= |p|
    requires var w := (n - 4) / 2;
             s == Endpoint(p[..w], Sixteen(p, n - 4)) && d == Endpoint(p[w..2 * w], Sixteen(p, n - 2))
    ensures Same(s, d) && p == Addresses(s, d) + p[n..]
  {
    Be16Inverse(p[n - 4..n - 4 + 2]);
    Be16Inverse(p[n - 2..n - 2 + 2]);
    FiveParts(p, (n - 4) / 2, n - 4, n - 2, n);
  }

  lemma {:induction false} WholeInput(input: Payload, length: nat, payload: Payload)
    requires 16 + length <= |input| && length == Sixteen(input, 14) && payload == input[16..16 + length]
    ensures length < 65536
    ensures input == input[..12] + [input[12], input[13]] + Be16(length) + payload + input[16 + length..]
  {
    Be16Inverse(input[14..14 + 2]);
  }

  /** The reader accepts nothing else. */
  lemma {:induction false} AcceptsOnlyHeaders(input: Payload)
    requires ReadV2Header(input).Header?
    ensures var h := ReadV2Header(input);
            && Same(h.source, h.destination) && Acceptable(h.source)
            && exists items :: Fits(h.source, items) && input == Wire(h.source, h.destination, items) + h.rest
  {
    var h := ReadV2Header(input);
    var n, length := AddressLength(input[13]), Sixteen(input, 14);
    var payload := input[16..16 + length];
    var items := Items(1, payload[n..]);
    ItemsEncode(1, payload[n..]);
    WholePayload(n, payload, h.source, h.destination);
    WholeInput(input, length, payload);
    WireOf(h.source, h.destination, items, input, payload);
  }

  lemma {:induction false} WireOf(s: Endpoint, d: Endpoint, items: seq<Item>, input: Payload, payload: Payload)
    requires Same(s, d) && AllOk(1, items) && payload == Addresses(s, d) + Encode(1, items) && |payload| <= MAX_PAYLOAD
    requires 16 + |payload| <= |input| && input[..12] == Signature() && input[12] == 0x21 && input[13] == Family(s.addr)
    requires input == input[..12] + [input[12], input[13]] + Be16(|payload|) + payload + input[16 + |payload|..]
    ensures Fits(s, items) && input == Wire(s, d, items) + input[16 + |payload|..]
  {
    assert |payload| == 2 * |s.addr| + 4 + |Encode(1, items)|;
  }
}
