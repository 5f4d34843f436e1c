/** Byte strings and lists of payloads, shared by the tunnel and the parsers. */
module Bytes {

  type Byte = x: int | 0 <= x < 256

  type Payload = seq<Byte>

  /** The bytes of a list of payloads, in order. */
  function Flatten(ps: seq<Payload>): Payload {
    if |ps| == 0 then [] else ps[0] + Flatten(ps[1..])
  }

  /** The number of bytes in a list of payloads. */
  function Size(ps: seq<Payload>): nat {
    |Flatten(ps)|
  }

  lemma {:induction false} FlattenConcat(ps: seq<Payload>, qs: seq<Payload>)
    ensures Flatten(ps + qs) == Flatten(ps) + Flatten(qs)
  {
    if |ps| == 0 {
      assert ps + qs == qs;
    } else {
      assert (ps + qs)[1..] == ps[1..] + qs;
      FlattenConcat(ps[1..], qs);
    }
  }

  lemma {:induction false} FlattenSnoc(ps: seq<Payload>, p: Payload)
    ensures Flatten(ps + [p]) == Flatten(ps) + p
    ensures Size(ps + [p]) == Size(ps) + |p|
  {
    FlattenConcat(ps, [p]);
    assert Flatten([p]) == p + Flatten([]);
  }

  lemma {:induction false} FlattenRemove(ps: seq<Payload>, i: nat)
    requires i < |ps|
    ensures Size(ps[..i] + ps[i + 1..]) == Size(ps) - |ps[i]|
  {
    FlattenConcat(ps[..i], ps[i..]);
    FlattenConcat(ps[..i], ps[i + 1..]);
    assert ps == ps[..i] + ps[i..];
    assert ps[i..][1..] == ps[i + 1..];
  }

  function Min(a: int, b: int): int {
    if a < b then a else b
  }
}
