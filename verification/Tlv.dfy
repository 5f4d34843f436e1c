/** Lists of tagged values with 16-bit big-endian lengths. PROXY v2 TLVs and TLS server names have
    one-byte tags, TLS extensions two-byte tags. */
module Tlv {
  import opened Bytes

  function Be16(n: nat): (b: Payload)
    requires n < 65536
    ensures |b| == 2 && U16(b) == n
  {
    [n / 256, n % 256]
  }

  function U16(b: Payload): nat
    requires |b| == 2
  {
    256 * (b[0] as int) + (b[1] as int)
  }

  lemma {:induction false} Be16Inverse(b: Payload)
    requires |b| == 2
    ensures U16(b) < 65536 && Be16(U16(b)) == b
  {
  }

  datatype Item = Item(tag: Payload, value: Payload)

  predicate ItemOk(w: nat, x: Item) {
    |x.tag| == w && |x.value| < 65536
  }

  predicate AllOk(w: nat, items: seq<Item>) {
    forall i :: 0 <= i < |items| ==> ItemOk(w, items[i])
  }

  function One(x: Item): Payload
    requires |x.value| < 65536
  {
    x.tag + Be16(|x.value|) + x.value
  }

  function Encode(w: nat, items: seq<Item>): Payload
    requires AllOk(w, items)
  {
    if |items| == 0 then [] else One(items[0]) + Encode(w, items[1..])
  }

  // ---- Reading ----

  /** A whole first item is there. */
  predicate HasItem(w: nat, b: Payload) {
    |b| >= w + 2 && w + 2 + U16(b[w..w + 2]) <= |b|
  }

  function First(w: nat, b: Payload): (x: Item)
    requires HasItem(w, b)
    ensures ItemOk(w, x) && |One(x)| <= |b|
  {
    Item(b[..w], b[w + 2..w + 2 + U16(b[w..w + 2])])
  }

  function Rest(w: nat, b: Payload): (r: Payload)
    requires HasItem(w, b)
    ensures |r| < |b|
  {
    b[w + 2 + U16(b[w..w + 2])..]
  }

  /** `b` can be cut into items to the end. */
  predicate Splits(w: nat, b: Payload)
    decreases |b|
  {
    |b| == 0 || (HasItem(w, b) && Splits(w, Rest(w, b)))
  }

  function Items(w: nat, b: Payload): (items: seq<Item>)
    requires Splits(w, b)
    ensures AllOk(w, items)
    decreases |b|
  {
    if |b| == 0 then [] else [First(w, b)] + Items(w, Rest(w, b))
  }

  // ---- The two are inverse ----

  lemma {:induction false} FirstOfOne(w: nat, x: Item, rest: Payload)
    requires ItemOk(w, x)
    ensures var b := One(x) + rest; HasItem(w, b) && First(w, b) == x && Rest(w, b) == rest
  {
    var b := One(x) + rest;
    assert b[w..w + 2] == Be16(|x.value|);
    assert b[..w] == x.tag;
    assert b[w + 2..w + 2 + |x.value|] == x.value;
    assert b[w + 2 + |x.value|..] == rest;
  }

  lemma {:induction false} OneOfFirst(w: nat, b: Payload)
    requires HasItem(w, b)
    ensures One(First(w, b)) + Rest(w, b) == b
  {
    Be16Inverse(b[w..w + 2]);
  }

  lemma {:induction false} EncodingSplits(w: nat, items: seq<Item>)
    requires AllOk(w, items)
    ensures Splits(w, Encode(w, items)) && Items(w, Encode(w, items)) == items
    decreases |items|
  {
    if |items| > 0 {
      EncodingSplits(w, items[1..]);
      FirstOfOne(w, items[0], Encode(w, items[1..]));
      assert items == [items[0]] + items[1..];
    }
  }

  lemma {:induction false} ItemsEncode(w: nat, b: Payload)
    requires Splits(w, b)
    ensures Encode(w, Items(w, b)) == b
    decreases |b|
  {
    if |b| > 0 {
      ItemsEncode(w, Rest(w, b));
      OneOfFirst(w, b);
      var items := Items(w, b);
      assert items[1..] == Items(w, Rest(w, b)) && items[0] == First(w, b);
    }
  }

  /** `b` is the encoding of some list of items. */
  ghost predicate IsEncoding(w: nat, b: Payload) {
    exists items :: AllOk(w, items) && Encode(w, items) == b
  }

  /** What can be cut to the end is exactly what some list encodes to. */
  lemma {:induction false} SplitsIffEncoding(w: nat, b: Payload)
    ensures Splits(w, b) <==> IsEncoding(w, b)
  {
    if Splits(w, b) {
      ItemsEncode(w, b);
    }
    if IsEncoding(w, b) {
      var items :| AllOk(w, items) && Encode(w, items) == b;
      EncodingSplits(w, items);
    }
  }
}
