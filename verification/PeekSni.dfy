/** PeekSNI: the server name of a connection whose bytes stay readable (go/internal/sniproxy/sniproxy.go). */
module PeekSni {
  import opened Bytes
  import opened ClientHello
  import Sni

  /** A name, with the bytes to replay before the rest of the connection; or an error. */
  method PeekSNI(input: Payload) returns (r: Sni.Sni, replay: Payload, unread: Payload)
    ensures r == match Peek(input, [], MAX_RECORDS)
                 case Error => Sni.Bad
                 case Hello(handshake, _) => Sni.Parse(handshake)
    ensures r.Found? ==> replay + unread == input
  {
    var ok, handshake;
    ok, handshake, replay, unread := ReadClientHello(input);
    if !ok {
      return Sni.Bad, [], input;
    }
    r := Sni.ParseSNI(handshake);
  }

  lemma {:induction false} MessageIsComplete(h: Sni.Hello, extra: Payload)
    requires Sni.HelloOk(h) && |Sni.Message(h)| <= MAX_HELLO
    ensures Assess(Sni.Message(h) + extra) == Complete(Sni.Message(h))
  {
    var m := Sni.Message(h);
    assert m[1..4] == Sni.Be24(|Sni.Body(h)|);
    assert Announced(m) == 4 + Sni.U24(m[1..4]) by {
      assert m[1..4][1..] == m[2..4];
    }
    assert m[..|m|] == m;
    DecidedStaysDecided(m, extra);
  }

  /** However a well-formed hello is cut into at most 64 records, and whatever comes after it, what
      is read from the connection is its message and the name found is the one it carries. */
  lemma {:induction false} AnyFragmentationGivesTheName(h: Sni.Hello, rs: seq<Record>, extra: Payload, rest: Payload)
    requires Sni.HelloOk(h) && |Sni.Message(h)| <= MAX_HELLO
    requires RecordsOk(rs) && |rs| <= MAX_RECORDS && Stream(rs) == Sni.Message(h) + extra
    ensures var p := Peek(Wire(rs) + rest, [], MAX_RECORDS);
            p.Hello? && p.handshake == Sni.Message(h) && Sni.Parse(p.handshake) == Sni.Meaning(h)
  {
    MessageIsComplete(h, extra);
    Sni.ParseIsMeaning(h);
    assert [] + Stream(rs) == Stream(rs);
    RecordsDecide(rs, [], rest, MAX_RECORDS);
  }
}
