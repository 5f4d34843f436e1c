/** What the token buckets guarantee over whole runs. */
module Throttle {
  import opened Collections
  import opened TokenBuckets

  datatype Call = Call(source: Source, now: int)

  ghost predicate TableOk(c: Config, t: Table, now: int) {
    ConfigOk(c) && forall s :: s in t ==> BucketOk(c, t[s], now)
  }

  /** Time does not go back. */
  predicate Ordered(calls: seq<Call>, from: int)
    decreases |calls|
  {
    |calls| == 0 || (from <= calls[0].now && Ordered(calls[1..], calls[0].now))
  }

  function End(calls: seq<Call>, from: int): int {
    if |calls| == 0 then from else calls[|calls| - 1].now
  }

  function Run(c: Config, t: Table, calls: seq<Call>): Table
    requires c.rate > 0.0
    decreases |calls|
  {
    if |calls| == 0 then t else Run(c, Next(c, t, calls[0].source, calls[0].now), calls[1..])
  }

  /** How many calls of `s` are allowed. */
  function Count(c: Config, t: Table, calls: seq<Call>, s: Source): nat
    requires c.rate > 0.0
    decreases |calls|
  {
    if |calls| == 0 then 0
    else Spent(c, t, calls[0], s) + Count(c, Next(c, t, calls[0].source, calls[0].now), calls[1..], s)
  }

  function Spent(c: Config, t: Table, call: Call, s: Source): nat
    requires c.rate > 0.0
  {
    if call.source == s && Reply(c, t, s, call.now).Allowed? then 1 else 0
  }

  // ---- The level of a source ----

  /** The tokens a source could spend now. A source that is not in the table has a full bucket. */
  function Level(c: Config, t: Table, s: Source, now: int): real {
    if s in t && Earned(c, t[s], now) < c.burst then Earned(c, t[s], now) else c.burst
  }

  lemma {:induction false} LevelBounds(c: Config, t: Table, s: Source, now: int)
    requires TableOk(c, t, now)
    ensures 0.0 <= Level(c, t, s, now) <= c.burst
  {
    if s in t {
      assert BucketOk(c, t[s], now);
      AccruedAdds(c.rate, 0, now - t[s].last);
    }
  }

  lemma {:induction false} LevelGrowsAtRate(c: Config, t: Table, s: Source, now: int, later: int)
    requires TableOk(c, t, now) && now <= later
    ensures TableOk(c, t, later) && Level(c, t, s, later) <= Level(c, t, s, now) + Accrued(c.rate, later - now)
  {
    AccruedAdds(c.rate, 0, later - now);
    if s in t {
      EarnedGrows(c, t[s], now, later);
    }
  }

  /** Deleting stale entries changes no level: it cannot be told from keeping them. */
  lemma {:induction false} SweepKeepsLevels(c: Config, t: Table, s: Source, now: int)
    requires TableOk(c, t, now)
    ensures TableOk(c, Swept(c, t, now), now) && Level(c, Swept(c, t, now), s, now) == Level(c, t, s, now)
  {
    if s in t && Stale(c, t, s, now) {
      StaleIsFull(c, t[s], now);
    }
  }

  lemma {:induction false} TakingSpends(c: Config, t: Table, s: Source, now: int)
    requires TableOk(c, t, now)
    ensures Bucketed(c, t, s, now).last == now && Bucketed(c, t, s, now).tokens == Level(c, t, s, now)
    ensures TableOk(c, Taken(c, t, s, now), now)
    ensures Level(c, Taken(c, t, s, now), s, now)
            == Level(c, t, s, now) - (if Grant(c, t, s, now).Allowed? then 1.0 else 0.0)
  {
    var b := if s in t then t[s] else Bucket(c.burst, now);
    assert BucketOk(c, b, now);
    RefillOk(c, b, now);
    var b' := Taken(c, t, s, now)[s];
    assert Earned(c, b', now) == b'.tokens;
  }

  /** A call spends one token of its source if it is allowed, and nothing else. */
  lemma {:induction false} CallSpends(c: Config, t: Table, call: Call, s: Source)
    requires TableOk(c, t, call.now)
    ensures TableOk(c, Next(c, t, call.source, call.now), call.now)
    ensures Level(c, Next(c, t, call.source, call.now), s, call.now)
            == Level(c, t, s, call.now) - Spent(c, t, call, s) as real
  {
    SweepKeepsLevels(c, t, s, call.now);
    SweepKeepsLevels(c, t, call.source, call.now);
    TakingSpends(c, Ready(c, t, call.source, call.now), call.source, call.now);
  }

  lemma {:induction false} FirstSpends(c: Config, t: Table, call: Call, from: int, s: Source)
    requires TableOk(c, t, from) && from <= call.now
    ensures TableOk(c, Next(c, t, call.source, call.now), call.now)
    ensures Spent(c, t, call, s) as real + Level(c, Next(c, t, call.source, call.now), s, call.now)
            <= Level(c, t, s, from) + Accrued(c.rate, call.now - from)
  {
    LevelGrowsAtRate(c, t, s, from, call.now);
    CallSpends(c, t, call, s);
  }

  lemma {:induction false} RunKeepsOk(c: Config, t: Table, calls: seq<Call>, from: int)
    requires TableOk(c, t, from) && Ordered(calls, from)
    ensures from <= End(calls, from) && TableOk(c, Run(c, t, calls), End(calls, from))
    decreases |calls|
  {
    if |calls| > 0 {
      FirstSpends(c, t, calls[0], from, calls[0].source);
      RunKeepsOk(c, Next(c, t, calls[0].source, calls[0].now), calls[1..], calls[0].now);
    }
  }

  /** Over a run, what a source is allowed and has left is at most what it had and what accrued. */
  ghost predicate Balanced(c: Config, t: Table, calls: seq<Call>, from: int, s: Source)
    requires c.rate > 0.0
  {
    Count(c, t, calls, s) as real + Level(c, Run(c, t, calls), s, End(calls, from))
    <= Level(c, t, s, from) + Accrued(c.rate, End(calls, from) - from)
  }

  lemma {:induction false} BalancedNext(c: Config, t: Table, calls: seq<Call>, from: int, s: Source)
    requires TableOk(c, t, from) && Ordered(calls, from) && |calls| > 0
    requires Balanced(c, Next(c, t, calls[0].source, calls[0].now), calls[1..], calls[0].now, s)
    requires calls[0].now <= End(calls[1..], calls[0].now)
    ensures Balanced(c, t, calls, from, s)
  {
    FirstSpends(c, t, calls[0], from, s);
    AccruedAdds(c.rate, calls[0].now - from, End(calls[1..], calls[0].now) - calls[0].now);
  }

  lemma {:induction false} RunSpends(c: Config, t: Table, calls: seq<Call>, from: int, s: Source)
    requires TableOk(c, t, from) && Ordered(calls, from)
    ensures Balanced(c, t, calls, from, s)
    decreases |calls|
  {
    if |calls| > 0 {
      var now, t' := calls[0].now, Next(c, t, calls[0].source, calls[0].now);
      FirstSpends(c, t, calls[0], from, s);
      RunKeepsOk(c, t', calls[1..], now);
      RunSpends(c, t', calls[1..], now, s);
      BalancedNext(c, t, calls, from, s);
    }
  }

  lemma {:induction false} WindowSpends(c: Config, t: Table, window: seq<Call>, from: int, s: Source)
    requires TableOk(c, t, from) && |window| > 0 && Ordered(window, from)
    ensures var first, last := window[0].now, window[|window| - 1].now;
            first <= last && Count(c, t, window, s) as real <= c.burst + Accrued(c.rate, last - first)
  {
    var first := window[0].now;
    LevelGrowsAtRate(c, t, s, from, first);
    LevelBounds(c, t, s, first);
    RunKeepsOk(c, t, window, first);
    RunSpends(c, t, window, first, s);
    LevelBounds(c, Run(c, t, window), s, End(window, first));
  }

  /** In any window of any run, a source is allowed at most burst + rate * T calls, where T is the
      time between the first and the last call in the window. */
  lemma {:induction false} WindowBound(c: Config, t: Table, before: seq<Call>, window: seq<Call>, from: int, s: Source)
    requires TableOk(c, t, from) && Ordered(before, from) && |window| > 0 && Ordered(window, End(before, from))
    ensures var elapsed := window[|window| - 1].now - window[0].now;
            Count(c, Run(c, t, before), window, s) as real <= c.burst + elapsed as real * c.rate
  {
    RunKeepsOk(c, t, before, from);
    WindowSpends(c, Run(c, t, before), window, End(before, from), s);
    AccruedIsProduct(c.rate, window[|window| - 1].now - window[0].now);
  }

  // ---- The bounded table refines an unbounded one ----

  /** `t` has some entries of `u`, and those it lacks are full by now. */
  ghost predicate Refines(c: Config, t: Table, u: Table, now: int) {
    && TableOk(c, u, now)
    && (forall s :: s in t ==> s in u && u[s] == t[s])
    && (forall s :: s in u && s !in t ==> Full(c, u[s], now))
  }

  lemma {:induction false} RefinesLater(c: Config, t: Table, u: Table, now: int, later: int)
    requires Refines(c, t, u, now) && now <= later
    ensures Refines(c, t, u, later)
  {
    forall s | s in u && s !in t
      ensures Full(c, u[s], later)
    {
      EarnedGrows(c, u[s], now, later);
    }
  }

  lemma {:induction false} SweptRefines(c: Config, t: Table, u: Table, now: int)
    requires Refines(c, t, u, now)
    ensures Refines(c, Swept(c, t, now), u, now)
  {
    forall s | s in u && s !in Swept(c, t, now)
      ensures Full(c, u[s], now)
    {
      if s in t {
        StaleIsFull(c, t[s], now);
      }
    }
  }

  lemma {:induction false} TakenRefines(c: Config, t: Table, u: Table, s: Source, now: int)
    requires Refines(c, t, u, now)
    ensures Grant(c, t, s, now) == Grant(c, u, s, now)
    ensures Refines(c, Taken(c, t, s, now), Taken(c, u, s, now), now)
  {
    if s in u {
      RefillOk(c, u[s], now);
    }
    assert Bucketed(c, t, s, now) == Bucketed(c, u, s, now);
    TakingSpends(c, u, s, now);
    assert forall x :: x in Taken(c, u, s, now) && x !in Taken(c, t, s, now) ==> x in u && x !in t;
  }

  /** The calls that are not turned away for lack of room. */
  function Admitted(c: Config, t: Table, calls: seq<Call>): seq<Call>
    requires c.rate > 0.0
    decreases |calls|
  {
    if |calls| == 0 then []
    else
      var call := calls[0];
      (if NoRoom(c, t, call.source, call.now) then [] else [call])
      + Admitted(c, Next(c, t, call.source, call.now), calls[1..])
  }

  /** What the bounded table answers to them. */
  function Answers(c: Config, t: Table, calls: seq<Call>): seq<Answer>
    requires c.rate > 0.0
    decreases |calls|
  {
    if |calls| == 0 then []
    else
      var call := calls[0];
      (if NoRoom(c, t, call.source, call.now) then [] else [Reply(c, t, call.source, call.now)])
      + Answers(c, Next(c, t, call.source, call.now), calls[1..])
  }

  /** What a table without bound and without eviction answers. */
  function UnboundedAnswers(c: Config, u: Table, calls: seq<Call>): seq<Answer>
    decreases |calls|
  {
    if |calls| == 0 then []
    else [Grant(c, u, calls[0].source, calls[0].now)]
         + UnboundedAnswers(c, Taken(c, u, calls[0].source, calls[0].now), calls[1..])
  }

  /** Apart from turning new sources away when it is full, the bounded table with its eviction
      answers every call as an unbounded one would. */
  lemma {:induction false} RefinesUnbounded(c: Config, t: Table, u: Table, calls: seq<Call>, from: int)
    requires Refines(c, t, u, from) && Ordered(calls, from)
    ensures Answers(c, t, calls) == UnboundedAnswers(c, u, Admitted(c, t, calls))
    decreases |calls|
  {
    if |calls| > 0 {
      var s, now, rest := calls[0].source, calls[0].now, calls[1..];
      RefinesLater(c, t, u, from, now);
      SweptRefines(c, t, u, now);
      var t' := Next(c, t, s, now);
      if NoRoom(c, t, s, now) {
        RefinesUnbounded(c, t', u, rest, now);
        assert Answers(c, t, calls) == Answers(c, t', rest) && Admitted(c, t, calls) == Admitted(c, t', rest);
      } else {
        TakenRefines(c, Ready(c, t, s, now), u, s, now);
        RefinesUnbounded(c, t', Taken(c, u, s, now), rest, now);
        AdmittedFirst(c, t, u, calls);
      }
    }
  }

  lemma {:induction false} AdmittedFirst(c: Config, t: Table, u: Table, calls: seq<Call>)
    requires c.rate > 0.0 && |calls| > 0 && !NoRoom(c, t, calls[0].source, calls[0].now)
    ensures var s, now := calls[0].source, calls[0].now;
            UnboundedAnswers(c, u, Admitted(c, t, calls))
            == [Grant(c, u, s, now)]
               + UnboundedAnswers(c, Taken(c, u, s, now), Admitted(c, Next(c, t, s, now), calls[1..]))
  {
    var all := Admitted(c, t, calls);
    assert all[0] == calls[0] && all[1..] == Admitted(c, Next(c, t, calls[0].source, calls[0].now), calls[1..]);
  }

  /** The sources that called within the refill time. */
  function Refilling(c: Config, t: Table, now: int): set<Source>
    requires c.rate > 0.0
  {
    set s | s in t && !Stale(c, t, s, now)
  }

  /** A new source is turned away exactly when maxSources others are still refilling. */
  lemma {:induction false} TurnedAwayWhenFull(c: Config, t: Table, s: Source, now: int)
    requires ConfigOk(c)
    ensures Reply(c, t, s, now).TableFull? <==> s !in t && |Refilling(c, t, now)| >= c.maxSources
  {
    assert Swept(c, t, now).Keys == Refilling(c, t, now);
    SubsetIsNoLarger(Refilling(c, t, now), t.Keys);
    assert |t| == |t.Keys|;
  }
}
