/** The end-of-header detector of go/cmd/blindport-relay/http_challenge.go: a reader that lets at most
    `limit` bytes through until it has seen an empty line. */
module HeaderLimit {
  import opened Bytes

  /** CRLFCRLF at position `i` (section 2.1 of RFC 9112). */
  predicate EndsAt(s: Payload, i: int) {
    0 <= i <= |s| - 4 && s[i] == 13 && s[i + 1] == 10 && s[i + 2] == 13 && s[i + 3] == 10
  }

  predicate Has(s: Payload) {
    exists i :: 0 <= i <= |s| - 4 && EndsAt(s, i)
  }

  function Last3(s: Payload): (t: Payload)
    ensures |t| <= 3
  {
    if |s| > 3 then s[|s| - 3..] else s
  }

  lemma {:induction false} HasGrows(a: Payload, b: Payload)
    requires Has(a) || Has(b)
    ensures Has(a + b)
  {
    if Has(a) {
      var i :| 0 <= i <= |a| - 4 && EndsAt(a, i);
      assert EndsAt(a + b, i);
    } else {
      var i :| 0 <= i <= |b| - 4 && EndsAt(b, i);
      assert EndsAt(a + b, |a| + i);
    }
  }

  /** Three bytes of the past are enough to find an end that more bytes complete. */
  lemma {:induction false} TailSuffices(a: Payload, b: Payload)
    requires !Has(a)
    ensures Has(a + b) <==> Has(Last3(a) + b)
    ensures Last3(Last3(a) + b) == Last3(a + b)
  {
    var t := Last3(a);
    var cut := |a| - |t|;
    assert a + b == a[..cut] + (t + b);
    if Has(t + b) {
      HasGrows(a[..cut], t + b);
    }
    if Has(a + b) {
      var i :| 0 <= i <= |a + b| - 4 && EndsAt(a + b, i);
      if i + 4 <= |a| {
        assert EndsAt(a, i);
      }
      assert EndsAt(t + b, i - cut);
    }
  }

  // ---- The detector ----

  datatype Detector = Detector(done: bool, tail: Payload)

  function Feed(d: Detector, chunk: Payload): Detector {
    if d.done then d
    else if Has(d.tail + chunk) then Detector(true, d.tail)
    else Detector(false, Last3(d.tail + chunk))
  }

  function FeedAll(d: Detector, chunks: seq<Payload>): Detector
    decreases |chunks|
  {
    if |chunks| == 0 then d else Feed(FeedAll(d, chunks[..|chunks| - 1]), chunks[|chunks| - 1])
  }

  /** The detector has seen `all`. */
  ghost predicate Knows(d: Detector, all: Payload) {
    d.done == Has(all) && (!d.done ==> d.tail == Last3(all))
  }

  lemma {:induction false} FeedKnows(d: Detector, all: Payload, chunk: Payload)
    requires Knows(d, all)
    ensures Knows(Feed(d, chunk), all + chunk)
  {
    if d.done {
      HasGrows(all, chunk);
    } else {
      TailSuffices(all, chunk);
    }
  }

  /** However the input is cut into chunks, the end of the header is detected exactly when the
      bytes so far contain it. */
  lemma {:induction false} DetectsExactly(d: Detector, chunks: seq<Payload>)
    requires !d.done && |d.tail| == 0
    ensures FeedAll(d, chunks).done <==> Has(Flatten(chunks))
    ensures Knows(FeedAll(d, chunks), Flatten(chunks))
    decreases |chunks|
  {
    if |chunks| > 0 {
      var n := |chunks| - 1;
      DetectsExactly(d, chunks[..n]);
      FeedKnows(FeedAll(d, chunks[..n]), Flatten(chunks[..n]), chunks[n]);
      FlattenSnoc(chunks[..n], chunks[n]);
      assert chunks == chunks[..n] + [chunks[n]];
    }
  }

  // ---- The reader ----

  /** The underlying reader: it gives any number of its bytes up to what is asked for. */
  class Source {
    var rest: Payload

    constructor (input: Payload)
      ensures rest == input
    {
      rest := input;
    }

    method Read(most: nat) returns (got: Payload, err: bool)
      modifies this
      ensures |got| <= most && old(rest) == got + rest
    {
      var n: nat :| n <= most && n <= |rest|;
      got, rest := rest[..n], rest[n..];
      err := *;
    }
  }

  class HeaderLimitReader {
    const reader: Source
    var remaining: nat
    var done: bool
    var tail: Payload
    var header: Payload
    ghost const limit: nat
    ghost var all: Payload

    constructor (reader: Source, limit: nat)
      ensures Valid() && this.reader == reader && this.limit == limit && remaining == limit && all == [] && !done
    {
      this.reader, this.limit, remaining, done, tail, header, all := reader, limit, limit, false, [], [], [];
    }

    /** `all` is everything read so far. */
    ghost predicate Valid()
      reads this
    {
      && Knows(Detector(done, tail), all)
      && |header| + remaining == limit && header <= all && (!done ==> header == all) && Has(header) == done
    }

    /** Read into a buffer of `size` bytes. */
    method Read(size: nat) returns (got: Payload, err: bool)
      requires Valid()
      modifies this, reader
      ensures Valid() && done == Has(all)
      ensures all == old(all) + got && old(reader.rest) == got + reader.rest && |got| <= size
      ensures !old(done) ==> |all| <= limit && header == all
      ensures old(done) ==> header == old(header)
      ensures !old(done) && old(|all|) == limit ==> err && got == []
    {
      if done {
        got, err := reader.Read(size);
        HasGrows(all, got);
        all := all + got;
        return;
      }
      if remaining == 0 {
        return [], true;
      }
      got, err := reader.Read(Min(size, remaining));
      FeedKnows(Detector(done, tail), all, got);
      remaining := remaining - |got|;
      header := header + got;
      all := all + got;
      var combined := tail + got;
      if Has(combined) {
        done := true;
      } else if |combined| > 3 {
        tail := combined[|combined| - 3..];
      } else {
        tail := combined;
      }
      if |got| == 0 && !err && remaining == 0 {
        err := true;
      }
    }
  }
}
