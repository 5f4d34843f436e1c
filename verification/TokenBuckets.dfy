/** Per-source token buckets in a table of bounded size (go/cmd/blindport-relay/admission.go).

    Times are nanoseconds. Token counts are reals; rounding of the source's floats is not modelled. */
module TokenBuckets {

  type Source = nat

  datatype Config = Config(rate: real, burst: real, maxSources: int)

  datatype Bucket = Bucket(tokens: real, last: int)

  type Table = map<Source, Bucket>

  /** As limitConfig.validate demands. */
  predicate ConfigOk(c: Config) {
    c.rate > 0.0 && c.burst >= 1.0 && c.maxSources > 0
  }

  // ---- One bucket ----

  /** What `elapsed` nanoseconds bring: their number times the rate. */
  function Accrued(rate: real, elapsed: int): real
    decreases elapsed
  {
    if elapsed <= 0 then 0.0 else Accrued(rate, elapsed - 1) + rate
  }

  lemma {:induction false} OneMore(x: real, y: real, r: real)
    requires y == x + 1.0
    ensures y * r == x * r + r
  {
  }

  lemma {:induction false} AccruedIsProduct(rate: real, elapsed: nat)
    ensures Accrued(rate, elapsed) == elapsed as real * rate
  {
    if elapsed > 0 {
      AccruedIsProduct(rate, elapsed - 1);
      var before := (elapsed - 1) as real;
      OneMore(before, elapsed as real, rate);
      assert Accrued(rate, elapsed) == Accrued(rate, elapsed - 1) + rate;
      assert Accrued(rate, elapsed - 1) == before * rate;
    }
  }

  lemma {:induction false} AccruedAdds(rate: real, a: nat, b: nat)
    requires rate > 0.0
    ensures Accrued(rate, a + b) == Accrued(rate, a) + Accrued(rate, b) && Accrued(rate, b) >= 0.0
    decreases b
  {
    if b > 0 {
      AccruedAdds(rate, a, b - 1);
    }
  }

  function Earned(c: Config, b: Bucket, now: int): real {
    b.tokens + Accrued(c.rate, now - b.last)
  }

  function Refill(c: Config, b: Bucket, now: int): Bucket {
    if now > b.last then
      Bucket(if Earned(c, b, now) < c.burst then Earned(c, b, now) else c.burst, now)
    else b
  }

  predicate BucketOk(c: Config, b: Bucket, now: int) {
    0.0 <= b.tokens <= c.burst && b.last <= now
  }

  /** A full bucket can be made from this one by waiting. */
  predicate Full(c: Config, b: Bucket, now: int) {
    Earned(c, b, now) >= c.burst
  }

  function FullRefill(c: Config): int
    requires c.rate > 0.0
  {
    (c.burst / c.rate).Floor + 1
  }

  lemma {:induction false} RefillTimeSuffices(c: Config, elapsed: int)
    requires ConfigOk(c) && elapsed >= FullRefill(c)
    ensures elapsed > 0 && Accrued(c.rate, elapsed) >= c.burst
  {
    var quotient := c.burst / c.rate;
    Quotient(c.burst, c.rate);
    assert elapsed as real >= quotient;
    AccruedIsProduct(c.rate, elapsed);
    Product(quotient, elapsed as real, c.rate);
  }

  lemma {:induction false} Quotient(a: real, b: real)
    requires a >= 0.0 && b > 0.0
    ensures a / b >= 0.0 && (a / b) * b == a
  {
  }

  lemma {:induction false} Product(a: real, b: real, r: real)
    requires a <= b && r >= 0.0
    ensures a * r <= b * r
  {
  }

  /** An entry that old is full. */
  lemma {:induction false} StaleIsFull(c: Config, b: Bucket, now: int)
    requires ConfigOk(c) && BucketOk(c, b, now) && now - b.last >= FullRefill(c)
    ensures Full(c, b, now) && now > b.last
  {
    RefillTimeSuffices(c, now - b.last);
  }

  lemma {:induction false} EarnedGrows(c: Config, b: Bucket, now: int, later: int)
    requires ConfigOk(c) && b.last <= now <= later
    ensures Earned(c, b, later) == Earned(c, b, now) + Accrued(c.rate, later - now)
    ensures Earned(c, b, now) <= Earned(c, b, later)
  {
    AccruedAdds(c.rate, now - b.last, later - now);
  }

  lemma {:induction false} RefillOk(c: Config, b: Bucket, now: int)
    requires ConfigOk(c) && BucketOk(c, b, now)
    ensures BucketOk(c, Refill(c, b, now), now) && Refill(c, b, now).last == now
    ensures Full(c, b, now) ==> Refill(c, b, now).tokens == c.burst
    ensures Refill(c, b, now).tokens == if Earned(c, b, now) < c.burst then Earned(c, b, now) else c.burst
  {
    AccruedAdds(c.rate, 0, now - b.last);
  }

  // ---- allow ----

  datatype Answer = Allowed | Denied | TableFull

  predicate Stale(c: Config, t: Table, s: Source, now: int)
    requires c.rate > 0.0 && s in t
  {
    now - t[s].last >= FullRefill(c)
  }

  function Swept(c: Config, t: Table, now: int): Table
    requires c.rate > 0.0
  {
    map s | s in t && !Stale(c, t, s, now) :: t[s]
  }

  /** The table when the source is looked up: swept only if it has no room for a new source. */
  function Ready(c: Config, t: Table, s: Source, now: int): Table
    requires c.rate > 0.0
  {
    if s !in t && |t| >= c.maxSources then Swept(c, t, now) else t
  }

  function Bucketed(c: Config, t: Table, s: Source, now: int): Bucket {
    Refill(c, if s in t then t[s] else Bucket(c.burst, now), now)
  }

  /** What one call does to a table of any size. */
  function Taken(c: Config, t: Table, s: Source, now: int): Table {
    var b := Bucketed(c, t, s, now);
    t[s := if b.tokens < 1.0 then b else Bucket(b.tokens - 1.0, b.last)]
  }

  function Grant(c: Config, t: Table, s: Source, now: int): Answer {
    if Bucketed(c, t, s, now).tokens < 1.0 then Denied else Allowed
  }

  predicate NoRoom(c: Config, t: Table, s: Source, now: int)
    requires c.rate > 0.0
  {
    s !in t && |Ready(c, t, s, now)| >= c.maxSources
  }

  function Next(c: Config, t: Table, s: Source, now: int): Table
    requires c.rate > 0.0
  {
    var t' := Ready(c, t, s, now);
    if NoRoom(c, t, s, now) then t' else Taken(c, t', s, now)
  }

  function Reply(c: Config, t: Table, s: Source, now: int): Answer
    requires c.rate > 0.0
  {
    if NoRoom(c, t, s, now) then TableFull else Grant(c, Ready(c, t, s, now), s, now)
  }

  class SourceTokenBuckets {
    const c: Config
    var sources: Table

    constructor (c: Config)
      requires ConfigOk(c)
      ensures this.c == c && sources == map[]
    {
      this.c, sources := c, map[];
    }

    /** The sweep deletes every stale entry. */
    method Sweep(now: int)
      requires ConfigOk(c)
      modifies this
      ensures sources == Swept(c, old(sources), now)
    {
      var todo := sources.Keys;
      while todo != {}
        invariant todo <= sources.Keys
        invariant sources ==
                  map s | s in old(sources) && (s in todo || !Stale(c, old(sources), s, now)) :: old(sources)[s]
        decreases |todo|
      {
        var s :| s in todo;
        todo := todo - {s};
        if now - sources[s].last >= FullRefill(c) {
          sources := sources - {s};
        }
      }
    }

    /** `direct` is false for an address that is no IP address. */
    method Allow(direct: bool, source: Source, now: int) returns (ok: bool)
      requires ConfigOk(c)
      modifies this
      ensures sources == if direct then Next(c, old(sources), source, now) else old(sources)
      ensures ok <==> direct && Reply(c, old(sources), source, now).Allowed?
    {
      if !direct {
        return false;
      }
      var bucket;
      if source in sources {
        bucket := sources[source];
      } else {
        if |sources| >= c.maxSources {
          Sweep(now);
          if |sources| >= c.maxSources {
            return false;
          }
        }
        bucket := Bucket(c.burst, now);
      }
      var elapsed := now - bucket.last;
      if elapsed > 0 {
        AccruedIsProduct(c.rate, elapsed);
        var earned := bucket.tokens + elapsed as real * c.rate;
        bucket := Bucket(if earned < c.burst then earned else c.burst, now);
      }
      if bucket.tokens < 1.0 {
        sources := sources[source := bucket];
        return false;
      }
      sources := sources[source := Bucket(bucket.tokens - 1.0, bucket.last)];
      return true;
    }
  }
}
