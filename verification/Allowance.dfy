/** What the token buckets owe a source: a call is turned down only when the tokens its history has
    left it do not cover it. */
module Allowance {
  import opened TokenBuckets
  import opened Throttle

  function Cap(c: Config, x: real): real {
    if x < c.burst then x else c.burst
  }

  // ---- The level decides ----

  /** A call that finds room is allowed if and only if its source has a token. */
  lemma {:induction false} AllowedIffAToken(c: Config, t: Table, s: Source, now: int)
    requires TableOk(c, t, now) && !NoRoom(c, t, s, now)
    ensures Reply(c, t, s, now).Allowed? <==> Level(c, t, s, now) >= 1.0
  {
    SweepKeepsLevels(c, t, s, now);
    TakingSpends(c, Ready(c, t, s, now), s, now);
  }

  /** Between calls the level rises at the rate, up to the burst. */
  lemma {:induction false} LevelRefills(c: Config, t: Table, s: Source, at: int, now: int)
    requires TableOk(c, t, at) && at <= now
    ensures Level(c, t, s, now) == Cap(c, Level(c, t, s, at) + Accrued(c.rate, now - at))
  {
    AccruedAdds(c.rate, 0, now - at);
    if s in t {
      EarnedGrows(c, t[s], at, now);
    }
  }

  // ---- The level is the history ----

  /** The tokens of a source that was granted calls at these times, from a full bucket. */
  function Tokens(c: Config, grants: seq<int>, now: int): real {
    if |grants| == 0 then c.burst
    else
      var last := grants[|grants| - 1];
      Cap(c, Tokens(c, grants[..|grants| - 1], last) - 1.0 + Accrued(c.rate, now - last))
  }

  /** The times at which calls of `s` are allowed. */
  function Grants(c: Config, t: Table, calls: seq<Call>, s: Source): seq<int>
    requires c.rate > 0.0
    decreases |calls|
  {
    if |calls| == 0 then []
    else
      (if Spent(c, t, calls[0], s) == 1 then [calls[0].now] else [])
      + Grants(c, Next(c, t, calls[0].source, calls[0].now), calls[1..], s)
  }

  predicate Upto(grants: seq<int>, at: int) {
    |grants| > 0 ==> grants[|grants| - 1] <= at
  }

  lemma {:induction false} TokensAtMost(c: Config, grants: seq<int>, at: int)
    ensures Tokens(c, grants, at) <= c.burst
  {
  }

  lemma {:induction false} TokensRefill(c: Config, grants: seq<int>, at: int, now: int)
    requires ConfigOk(c) && Upto(grants, at) && at <= now
    ensures Tokens(c, grants, now) == Cap(c, Tokens(c, grants, at) + Accrued(c.rate, now - at))
  {
    AccruedAdds(c.rate, 0, now - at);
    if |grants| > 0 {
      AccruedAdds(c.rate, at - grants[|grants| - 1], now - at);
    }
  }

  lemma {:induction false} TokensSpent(c: Config, grants: seq<int>, at: int)
    ensures Tokens(c, grants + [at], at) == Tokens(c, grants, at) - 1.0
  {
    TokensAtMost(c, grants, at);
    var all := grants + [at];
    assert all[..|all| - 1] == grants && all[|all| - 1] == at;
    assert Accrued(c.rate, 0) == 0.0;
  }

  /** At time `at` the level of `s` is what its history leaves. */
  ghost predicate InHistory(c: Config, t: Table, s: Source, grants: seq<int>, at: int) {
    TableOk(c, t, at) && Upto(grants, at) && Level(c, t, s, at) == Tokens(c, grants, at)
  }

  function Granted(c: Config, t: Table, call: Call, s: Source, grants: seq<int>): seq<int>
    requires c.rate > 0.0
  {
    if Spent(c, t, call, s) == 1 then grants + [call.now] else grants
  }

  lemma {:induction false} TimePasses(c: Config, t: Table, s: Source, grants: seq<int>, at: int, now: int)
    requires InHistory(c, t, s, grants, at) && at <= now
    ensures InHistory(c, t, s, grants, now)
  {
    LevelRefills(c, t, s, at, now);
    TokensRefill(c, grants, at, now);
    LevelGrowsAtRate(c, t, s, at, now);
  }

  /** One call, seen from a source's history. */
  lemma {:induction false} CallInHistory(c: Config, t: Table, from: int, call: Call, s: Source, grants: seq<int>)
    requires InHistory(c, t, s, grants, from) && from <= call.now
    ensures InHistory(c, Next(c, t, call.source, call.now), s, Granted(c, t, call, s, grants), call.now)
  {
    TimePasses(c, t, s, grants, from, call.now);
    CallSpends(c, t, call, s);
    TokensSpent(c, grants, call.now);
  }

  lemma {:induction false} GrantsFirst(c: Config, t: Table, calls: seq<Call>, s: Source, grants: seq<int>)
    requires c.rate > 0.0 && |calls| > 0
    ensures grants + Grants(c, t, calls, s)
            == Granted(c, t, calls[0], s, grants) + Grants(c, Next(c, t, calls[0].source, calls[0].now), calls[1..], s)
  {
  }

  lemma {:induction false} LevelIsHistory(c: Config, t: Table, calls: seq<Call>, from: int, s: Source, grants: seq<int>)
    requires InHistory(c, t, s, grants, from) && Ordered(calls, from)
    ensures InHistory(c, Run(c, t, calls), s, grants + Grants(c, t, calls, s), End(calls, from))
    decreases |calls|
  {
    if |calls| == 0 {
      assert grants + Grants(c, t, calls, s) == grants;
    } else {
      var call := calls[0];
      CallInHistory(c, t, from, call, s, grants);
      LevelIsHistory(c, Next(c, t, call.source, call.now), calls[1..], call.now, s, Granted(c, t, call, s, grants));
      GrantsFirst(c, t, calls, s, grants);
    }
  }

  /** After any run from an empty table, a call that finds room is allowed if and only if a bucket that
      was full at first, refilled at the rate up to the burst, and from which every earlier allowed call
      of the source took one token, holds one. */
  lemma {:induction false} HistoryDecides(c: Config, t: Table, calls: seq<Call>, from: int, s: Source, now: int)
    requires ConfigOk(c) && t.Keys == {} && Ordered(calls, from) && End(calls, from) <= now
    requires !NoRoom(c, Run(c, t, calls), s, now)
    ensures Reply(c, Run(c, t, calls), s, now).Allowed? <==> Tokens(c, Grants(c, t, calls, s), now) >= 1.0
  {
    var none: seq<int> := [];
    LevelIsHistory(c, t, calls, from, s, none);
    assert none + Grants(c, t, calls, s) == Grants(c, t, calls, s);
    TimePasses(c, Run(c, t, calls), s, Grants(c, t, calls, s), End(calls, from), now);
    AllowedIffAToken(c, Run(c, t, calls), s, now);
  }

  // ---- The bounded table refines the histories ----

  type Histories = map<Source, seq<int>>

  function Of(h: Histories, s: Source): seq<int> {
    if s in h then h[s] else []
  }

  /** What each call is owed by the history of its source alone: no table, no eviction, no bound. */
  function Owed(c: Config, h: Histories, calls: seq<Call>): seq<Answer>
    decreases |calls|
  {
    if |calls| == 0 then []
    else
      var s, now := calls[0].source, calls[0].now;
      if Tokens(c, Of(h, s), now) >= 1.0 then [Allowed] + Owed(c, h[s := Of(h, s) + [now]], calls[1..])
      else [Denied] + Owed(c, h, calls[1..])
  }

  ghost predicate AllInHistory(c: Config, t: Table, h: Histories, at: int) {
    TableOk(c, t, at) && forall s :: InHistory(c, t, s, Of(h, s), at)
  }

  function NextHistory(c: Config, t: Table, h: Histories, call: Call): Histories
    requires c.rate > 0.0
  {
    if Reply(c, t, call.source, call.now).Allowed? then h[call.source := Of(h, call.source) + [call.now]] else h
  }

  lemma {:induction false} CallInAllHistories(c: Config, t: Table, from: int, call: Call, h: Histories)
    requires AllInHistory(c, t, h, from) && from <= call.now
    ensures AllInHistory(c, Next(c, t, call.source, call.now), NextHistory(c, t, h, call), call.now)
  {
    var h' := NextHistory(c, t, h, call);
    forall s
      ensures InHistory(c, Next(c, t, call.source, call.now), s, Of(h', s), call.now)
    {
      CallInHistory(c, t, from, call, s, Of(h, s));
      assert Of(h', s) == Granted(c, t, call, s, Of(h, s));
    }
  }

  lemma {:induction false} OwedFirst(c: Config, t: Table, h: Histories, from: int, call: Call)
    requires AllInHistory(c, t, h, from) && from <= call.now && !NoRoom(c, t, call.source, call.now)
    ensures Reply(c, t, call.source, call.now)
            == if Tokens(c, Of(h, call.source), call.now) >= 1.0 then Allowed else Denied
  {
    TimePasses(c, t, call.source, Of(h, call.source), from, call.now);
    AllowedIffAToken(c, t, call.source, call.now);
  }

  lemma {:induction false} AdmittedFirst(c: Config, t: Table, h: Histories, calls: seq<Call>)
    requires c.rate > 0.0 && |calls| > 0 && !NoRoom(c, t, calls[0].source, calls[0].now)
    requires Reply(c, t, calls[0].source, calls[0].now)
             == if Tokens(c, Of(h, calls[0].source), calls[0].now) >= 1.0 then Allowed else Denied
    ensures Owed(c, h, Admitted(c, t, calls))
            == [Reply(c, t, calls[0].source, calls[0].now)]
               + Owed(c, NextHistory(c, t, h, calls[0]),
                      Admitted(c, Next(c, t, calls[0].source, calls[0].now), calls[1..]))
  {
    var all := Admitted(c, t, calls);
    assert all[0] == calls[0] && all[1..] == Admitted(c, Next(c, t, calls[0].source, calls[0].now), calls[1..]);
  }

  /** Apart from turning new sources away when it is full, the bounded table with its eviction gives
      every call of every run exactly what the history of its source owes it. */
  lemma {:induction false} RefinesHistories(c: Config, t: Table, h: Histories, calls: seq<Call>, from: int)
    requires AllInHistory(c, t, h, from) && Ordered(calls, from)
    ensures Answers(c, t, calls) == Owed(c, h, Admitted(c, t, calls))
    decreases |calls|
  {
    if |calls| > 0 {
      var call, t' := calls[0], Next(c, t, calls[0].source, calls[0].now);
      CallInAllHistories(c, t, from, call, h);
      RefinesHistories(c, t', NextHistory(c, t, h, call), calls[1..], call.now);
      if NoRoom(c, t, call.source, call.now) {
        assert Answers(c, t, calls) == Answers(c, t', calls[1..]);
        assert Admitted(c, t, calls) == Admitted(c, t', calls[1..]);
      } else {
        OwedFirst(c, t, h, from, call);
        AdmittedFirst(c, t, h, calls);
      }
    }
  }

  lemma {:induction false} EmptyInHistory(c: Config, t: Table, h: Histories, at: int)
    requires ConfigOk(c) && t.Keys == {} && h.Keys == {}
    ensures AllInHistory(c, t, h, at)
  {
  }

  // ---- A source that is turned down has had its share ----

  /** The level of a source at the last call of a run. */
  function Left(c: Config, t: Table, calls: seq<Call>, from: int, s: Source): real
    requires c.rate > 0.0
    decreases |calls|
  {
    if |calls| == 0 then Level(c, t, s, from)
    else Left(c, Next(c, t, calls[0].source, calls[0].now), calls[1..], calls[0].now, s)
  }

  lemma {:induction false} LeftIsLevel(c: Config, t: Table, calls: seq<Call>, from: int, s: Source)
    requires c.rate > 0.0
    ensures Left(c, t, calls, from, s) == Level(c, Run(c, t, calls), s, End(calls, from))
    decreases |calls|
  {
    if |calls| > 0 {
      LeftIsLevel(c, Next(c, t, calls[0].source, calls[0].now), calls[1..], calls[0].now, s);
    }
  }

  /** Over a stretch of calls, what is left and what was allowed is what was there and what accrued. */
  ghost predicate AddsUp(c: Config, t: Table, calls: seq<Call>, begin: int, s: Source, had: real)
    requires c.rate > 0.0
  {
    Count(c, t, calls, s) as real + Left(c, t, calls, begin, s) == had + Accrued(c.rate, End(calls, begin) - begin)
  }

  /** The first call: the level before it, what it spends and what is left after it. */
  lemma {:induction false} FirstCall(c: Config, t: Table, call: Call, from: int, s: Source)
    requires TableOk(c, t, from) && from <= call.now
    ensures Level(c, Next(c, t, call.source, call.now), s, call.now) + Spent(c, t, call, s) as real
            == Level(c, t, s, call.now) == Cap(c, Level(c, t, s, from) + Accrued(c.rate, call.now - from))
    ensures TableOk(c, Next(c, t, call.source, call.now), call.now)
  {
    LevelRefills(c, t, s, from, call.now);
    LevelGrowsAtRate(c, t, s, from, call.now);
    CallSpends(c, t, call, s);
  }

  /** A stretch that adds up, with the call before it. */
  lemma {:induction false} LongerAddsUp(
    c: Config, t: Table, calls: seq<Call>, begin: int, s: Source, had: real, after: real)
    requires c.rate > 0.0 && |calls| > 0 && begin <= calls[0].now <= End(calls[1..], calls[0].now)
    requires AddsUp(c, Next(c, t, calls[0].source, calls[0].now), calls[1..], calls[0].now, s, after)
    requires after + Spent(c, t, calls[0], s) as real == had + Accrued(c.rate, calls[0].now - begin)
    ensures AddsUp(c, t, calls, begin, s, had)
  {
    AccruedAdds(c.rate, calls[0].now - begin, End(calls[1..], calls[0].now) - calls[0].now);
  }

  /** Where a stretch that adds up begins: with the run, or at a call that finds a full bucket. */
  ghost predicate Begins(c: Config, t: Table, calls: seq<Call>, from: int, s: Source, j: nat, begin: int, had: real)
    requires c.rate > 0.0 && j <= |calls|
  {
    || (j == 0 && begin == from && had == Level(c, t, s, from))
    || (j < |calls| && begin == calls[j].now && had == c.burst
        && Level(c, Run(c, t, calls[..j]), s, calls[j].now) == c.burst)
  }

  lemma {:induction false} RunTail(c: Config, t: Table, calls: seq<Call>, j: nat)
    requires c.rate > 0.0 && |calls| > 0 && j <= |calls| - 1
    ensures var t' := Next(c, t, calls[0].source, calls[0].now);
            Run(c, t, calls[..j + 1]) == Run(c, t', calls[1..][..j]) && calls[1..][j..] == calls[j + 1..]
  {
    assert calls[..j + 1][1..] == calls[1..][..j];
  }

  lemma {:induction false} EndOfRest(calls: seq<Call>, from: int, j: nat)
    requires Ordered(calls, from) && j < |calls|
    ensures End(calls[j..], calls[j].now) == End(calls, from) && calls[j].now <= End(calls, from)
    decreases |calls|
  {
    if j > 0 {
      EndOfRest(calls[1..], calls[0].now, j - 1);
      assert calls[1..][j - 1..] == calls[j..];
    } else if |calls| > 1 {
      EndOfRest(calls[1..], calls[0].now, 0);
    }
  }

  /** Every run ends with a stretch that adds up. */
  lemma {:induction false} EveryRunAddsUp(c: Config, t: Table, calls: seq<Call>, from: int, s: Source)
    returns (j: nat, begin: int, had: real)
    requires TableOk(c, t, from) && Ordered(calls, from)
    ensures j <= |calls| && Begins(c, t, calls, from, s, j, begin, had)
    ensures AddsUp(c, Run(c, t, calls[..j]), calls[j..], begin, s, had)
    decreases |calls|
  {
    if |calls| == 0 {
      j, begin, had := 0, from, Level(c, t, s, from);
      assert calls[0..] == calls && calls[..0] == calls;
      assert Accrued(c.rate, 0) == 0.0;
    } else {
      var call, t', rest := calls[0], Next(c, t, calls[0].source, calls[0].now), calls[1..];
      FirstCall(c, t, call, from, s);
      j, begin, had := EveryRunAddsUp(c, t', rest, call.now, s);
      RunTail(c, t, calls, j);
      if j == 0 && begin == call.now && had == Level(c, t', s, call.now) {
        begin, had := FirstAddsUp(c, t, calls, from, s, had);
      } else {
        j := j + 1;
      }
    }
  }

  lemma {:induction false} FirstAddsUp(c: Config, t: Table, calls: seq<Call>, from: int, s: Source, after: real)
    returns (begin: int, had: real)
    requires TableOk(c, t, from) && Ordered(calls, from) && |calls| > 0
    requires var t' := Next(c, t, calls[0].source, calls[0].now);
             && after == Level(c, t', s, calls[0].now)
             && AddsUp(c, Run(c, t', calls[1..][..0]), calls[1..][0..], calls[0].now, s, after)
    ensures Begins(c, t, calls, from, s, 0, begin, had)
    ensures AddsUp(c, Run(c, t, calls[..0]), calls[0..], begin, s, had)
  {
    FirstCall(c, t, calls[0], from, s);
    EndOfRest(calls, from, 0);
    assert calls[..0] == [] && calls[0..] == calls && calls[1..][0..] == calls[1..] && calls[1..][..0] == [];
    if |calls| > 1 {
      EndOfRest(calls[1..], calls[0].now, 0);
    }
    if Level(c, t, s, calls[0].now) == c.burst {
      begin, had := calls[0].now, c.burst;
      assert Accrued(c.rate, 0) == 0.0;
    } else {
      begin, had := from, Level(c, t, s, from);
    }
    LongerAddsUp(c, t, calls, begin, s, had, after);
  }

  lemma {:induction false} Exceeds(rate: real, count: real, level: real, had: real, begin: int, end: int, now: int)
    requires rate > 0.0 && begin <= end <= now
    requires count + level == had + Accrued(rate, end - begin) && level + Accrued(rate, now - end) < 1.0
    ensures count > had + Accrued(rate, now - begin) - 1.0
  {
    AccruedAdds(rate, end - begin, now - end);
  }

  lemma {:induction false} DeniedLevel(c: Config, t: Table, s: Source, at: int, now: int)
    requires TableOk(c, t, at) && at <= now && !NoRoom(c, t, s, now) && !Reply(c, t, s, now).Allowed?
    ensures Level(c, t, s, at) + Accrued(c.rate, now - at) < 1.0
  {
    LevelRefills(c, t, s, at, now);
    LevelGrowsAtRate(c, t, s, at, now);
    AllowedIffAToken(c, t, s, now);
  }

  /** The whole run's last level is that of its last stretch. */
  lemma {:induction false} LeftOfRest(c: Config, t: Table, calls: seq<Call>, from: int, s: Source, j: nat, begin: int)
    requires c.rate > 0.0 && j <= |calls| && (j == |calls| ==> begin == End(calls, from))
    ensures Left(c, Run(c, t, calls[..j]), calls[j..], begin, s) == Left(c, t, calls, from, s)
    decreases |calls|
  {
    if j == 0 {
      assert calls[..0] == [] && calls[0..] == calls;
    } else {
      RunTail(c, t, calls, j - 1);
      LeftOfRest(c, Next(c, t, calls[0].source, calls[0].now), calls[1..], calls[0].now, s, j - 1, begin);
    }
  }

  /** A source that is turned down although there is room has been allowed, since the beginning or since
      a moment when its bucket was full, more calls than it had tokens then plus the rate times the time
      since, minus one. */
  lemma {:induction false} DeniedHasSpent(c: Config, t: Table, calls: seq<Call>, from: int, s: Source, now: int)
    returns (j: nat, begin: int, had: real)
    requires TableOk(c, t, from) && Ordered(calls, from) && End(calls, from) <= now
    requires !NoRoom(c, Run(c, t, calls), s, now) && !Reply(c, Run(c, t, calls), s, now).Allowed?
    ensures j <= |calls| && Begins(c, t, calls, from, s, j, begin, had)
    ensures Count(c, Run(c, t, calls[..j]), calls[j..], s) as real > had + Accrued(c.rate, now - begin) - 1.0
  {
    RunKeepsOk(c, t, calls, from);
    DeniedLevel(c, Run(c, t, calls), s, End(calls, from), now);
    LeftIsLevel(c, t, calls, from, s);
    j, begin, had := EveryRunAddsUp(c, t, calls, from, s);
    StretchExceeds(c, t, calls, from, s, now, j, begin, had);
  }

  lemma {:induction false} StretchExceeds(
    c: Config, t: Table, calls: seq<Call>, from: int, s: Source, now: int, j: nat, begin: int, had: real)
    requires c.rate > 0.0 && Ordered(calls, from) && from <= End(calls, from) <= now && j <= |calls|
    requires (j == 0 && begin == from) || (j < |calls| && begin == calls[j].now)
    requires AddsUp(c, Run(c, t, calls[..j]), calls[j..], begin, s, had)
    requires Left(c, t, calls, from, s) + Accrued(c.rate, now - End(calls, from)) < 1.0
    ensures Count(c, Run(c, t, calls[..j]), calls[j..], s) as real > had + Accrued(c.rate, now - begin) - 1.0
  {
    StretchEnds(calls, from, j, begin);
    LeftOfRest(c, t, calls, from, s, j, begin);
    Exceeds(c.rate, Count(c, Run(c, t, calls[..j]), calls[j..], s) as real, Left(c, t, calls, from, s), had, begin,
            End(calls, from), now);
  }

  lemma {:induction false} StretchEnds(calls: seq<Call>, from: int, j: nat, begin: int)
    requires Ordered(calls, from) && from <= End(calls, from) && j <= |calls|
    requires (j == 0 && begin == from) || (j < |calls| && begin == calls[j].now)
    ensures End(calls[j..], begin) == End(calls, from) && begin <= End(calls, from)
    ensures j == |calls| ==> begin == End(calls, from)
  {
    assert |calls[j..]| == |calls| - j;
    if j < |calls| {
      EndOfRest(calls, from, j);
    }
  }

  // ---- A silent source has its burst ----

  lemma {:induction false} SilentIsFull(c: Config, t: Table, s: Source, now: int)
    requires TableOk(c, t, now) && (s in t ==> now - t[s].last >= FullRefill(c))
    ensures Level(c, t, s, now) == c.burst
  {
    if s in t {
      StaleIsFull(c, t[s], now);
    }
  }

  predicate AllBy(calls: seq<Call>, s: Source) {
    forall i :: 0 <= i < |calls| ==> calls[i].source == s
  }

  lemma {:induction false} KnownHasRoom(c: Config, t: Table, s: Source, now: int)
    requires c.rate > 0.0 && !NoRoom(c, t, s, now)
    ensures s in Next(c, t, s, now)
  {
  }

  /** As many calls in a row as the source has tokens are all allowed, once the first finds room. */
  lemma {:induction false} TokensAreHonoured(c: Config, t: Table, calls: seq<Call>, from: int, s: Source)
    requires TableOk(c, t, from) && Ordered(calls, from) && AllBy(calls, s)
    requires |calls| > 0 ==> !NoRoom(c, t, s, calls[0].now) && Level(c, t, s, calls[0].now) >= |calls| as real
    ensures Count(c, t, calls, s) == |calls|
    decreases |calls|
  {
    if |calls| > 0 {
      var now, t' := calls[0].now, Next(c, t, s, calls[0].now);
      LevelGrowsAtRate(c, t, s, from, now);
      AllowedIffAToken(c, t, s, now);
      CallSpends(c, t, calls[0], s);
      KnownHasRoom(c, t, s, now);
      if |calls| > 1 {
        var next := calls[1].now;
        assert calls[1..][0] == calls[1];
        LevelRefills(c, t', s, now, next);
        AccruedAdds(c.rate, 0, next - now);
        LevelBounds(c, t, s, now);
      }
      TokensAreHonoured(c, t', calls[1..], now, s);
    }
  }

  /** So a source that was silent for the refill time, or is new, gets its whole burst in a row. */
  lemma {:induction false} SilentSourceGetsItsBurst(c: Config, t: Table, calls: seq<Call>, from: int, s: Source)
    requires TableOk(c, t, from) && Ordered(calls, from) && AllBy(calls, s) && 0 < |calls| <= c.burst.Floor
    requires !NoRoom(c, t, s, calls[0].now) && (s in t ==> calls[0].now - t[s].last >= FullRefill(c))
    ensures Count(c, t, calls, s) == |calls|
  {
    LevelGrowsAtRate(c, t, s, from, calls[0].now);
    SilentIsFull(c, t, s, calls[0].now);
    TokensAreHonoured(c, t, calls, from, s);
  }
}
