/** Max-min fairness of stream eviction (go/internal/tunnel/tunnel.go): what evictionVictimLocked
    may choose, and why fair-share replacement cannot go on forever. */
module Fairness {
  import opened Collections

  /** sourceGroup and lastActivity of one stream in the table. */
  datatype Entry = Entry(group: string, last: int)

  type Table = map<nat, Entry>

  datatype Choice = Refused | Idle(id: nat) | FairShare(id: nat)

  /** The streams of one source group. */
  function Members(t: Table, g: string): set<nat> {
    set id | id in t && t[id].group == g
  }

  function Count(t: Table, g: string): nat {
    |Members(t, g)|
  }

  predicate IsIdle(t: Table, cutoff: int, id: nat) {
    id in t && t[id].last <= cutoff
  }

  /** The documented policy: the least recently active idle stream; else, when some group holds at
      least two streams more than the requester, the least recently active stream of a group that
      holds the most; else nothing. */
  predicate Policy(t: Table, requester: string, cutoff: int, choice: Choice) {
    match choice
    case Idle(id) =>
      IsIdle(t, cutoff, id) && forall other :: other in t ==> t[id].last <= t[other].last
    case FairShare(id) =>
      && (forall other :: other in t ==> !IsIdle(t, cutoff, other))
      && id in t
      && Count(t, t[id].group) >= Count(t, requester) + 2
      && (forall other :: other in t ==> Count(t, t[other].group) <= Count(t, t[id].group))
      && (forall other :: other in t && t[other].group == t[id].group ==> t[id].last <= t[other].last)
    case Refused =>
      && (forall other :: other in t ==> !IsIdle(t, cutoff, other))
      && (forall other :: other in t ==> Count(t, t[other].group) <= Count(t, requester) + 1)
  }

  function CountIn(counts: map<string, nat>, g: string): nat {
    if g in counts then counts[g] else 0
  }

  function CountOutside(t: Table, todo: set<nat>, g: string): nat {
    |Members(t, g) - todo|
  }

  /** `counts` holds the group counts of the streams outside `todo`. */
  ghost predicate Counted(t: Table, todo: set<nat>, counts: map<string, nat>) {
    forall g :: CountIn(counts, g) == CountOutside(t, todo, g)
  }

  lemma {:induction false} CountOne(t: Table, todo: set<nat>, counts: map<string, nat>, id: nat)
    requires Counted(t, todo, counts) && id in todo && id in t
    ensures Counted(t, todo - {id}, counts[t[id].group := CountIn(counts, t[id].group) + 1])
  {
    var counts' := counts[t[id].group := CountIn(counts, t[id].group) + 1];
    forall g ensures CountIn(counts', g) == CountOutside(t, todo - {id}, g) {
      CountOneGroup(t, todo, id, g);
      assert CountIn(counts, g) == CountOutside(t, todo, g);
    }
  }

  lemma {:induction false} CountOneGroup(t: Table, todo: set<nat>, id: nat, g: string)
    requires id in todo && id in t
    ensures CountOutside(t, todo - {id}, g) == CountOutside(t, todo, g) + (if g == t[id].group then 1 else 0)
  {
    if g == t[id].group {
      assert Members(t, g) - (todo - {id}) == (Members(t, g) - todo) + {id};
    } else {
      assert Members(t, g) - (todo - {id}) == Members(t, g) - todo;
    }
  }

  lemma {:induction false} NothingCounted(t: Table)
    ensures Counted(t, t.Keys, map[])
  {
    forall g ensures CountOutside(t, t.Keys, g) == 0 {
      assert Members(t, g) - t.Keys == {};
    }
  }

  lemma {:induction false} CountedAll(t: Table, counts: map<string, nat>)
    requires Counted(t, {}, counts)
    ensures forall g :: CountIn(counts, g) == Count(t, g)
  {
    forall g ensures CountIn(counts, g) == Count(t, g) {
      assert Members(t, g) - {} == Members(t, g);
      assert CountIn(counts, g) == CountOutside(t, {}, g);
    }
  }

  /** The count of the heaviest group decides whether fair share may replace a stream. */
  lemma {:induction false} HeaviestDecides(t: Table, counts: map<string, nat>, requester: string, most: nat)
    requires Counted(t, {}, counts)
    requires forall g :: CountIn(counts, g) <= most
    requires most < Count(t, requester) + 2
    ensures forall id :: id in t ==> Count(t, t[id].group) <= Count(t, requester) + 1
  {
    CountedAll(t, counts);
    forall id | id in t ensures Count(t, t[id].group) <= Count(t, requester) + 1 {
      assert CountIn(counts, t[id].group) <= most;
    }
  }

  /** `idle` is the least recently active idle stream outside `todo`, if there is one. */
  predicate OldestIdle(t: Table, todo: set<nat>, cutoff: int, idle: Choice) {
    match idle
    case Idle(id) =>
      IsIdle(t, cutoff, id) && forall other :: other in t && other !in todo ==> t[id].last <= t[other].last
    case Refused => forall other :: other in t && other !in todo ==> !IsIdle(t, cutoff, other)
    case FairShare(_) => false
  }

  lemma {:induction false} OldestIdleStep(t: Table, todo: set<nat>, cutoff: int, idle: Choice, id: nat)
    requires OldestIdle(t, todo, cutoff, idle) && id in t
    ensures if t[id].last <= cutoff && (idle.Refused? || t[id].last < t[idle.id].last)
            then OldestIdle(t, todo - {id}, cutoff, Idle(id))
            else OldestIdle(t, todo - {id}, cutoff, idle)
  {
  }

  /** evictionVictimLocked; `cutoff` is the current time less the idle limit. The order in which
      the loops visit the streams is arbitrary, as for a Go map. */
  method EvictionVictim(t: Table, requester: string, cutoff: int) returns (choice: Choice)
    ensures Policy(t, requester, cutoff, choice)
  {
    var counts, idle := ScanStreams(t, cutoff);
    if idle.Idle? {
      return idle;
    }
    var heaviest, heaviestCount := Heaviest(counts);
    CountedAll(t, counts);
    if heaviest == requester || heaviestCount < CountIn(counts, requester) + 2 {
      HeaviestDecides(t, counts, requester, heaviestCount);
      return Refused;
    }
    var victim := OldestOf(t, heaviest);
    return FairShare(victim);
  }

  /** The first loop: streams per group, and the least recently active idle stream. */
  method ScanStreams(t: Table, cutoff: int) returns (counts: map<string, nat>, idle: Choice)
    ensures Counted(t, {}, counts)
    ensures OldestIdle(t, {}, cutoff, idle)
  {
    counts, idle := map[], Refused;
    var todo := t.Keys;
    NothingCounted(t);
    while todo != {}
      invariant todo <= t.Keys
      invariant Counted(t, todo, counts)
      invariant OldestIdle(t, todo, cutoff, idle)
      decreases |todo|
    {
      var id :| id in todo;
      CountOne(t, todo, counts, id);
      OldestIdleStep(t, todo, cutoff, idle, id);
      todo := todo - {id};
      counts := counts[t[id].group := CountIn(counts, t[id].group) + 1];
      if t[id].last <= cutoff && (idle.Refused? || t[id].last < t[idle.id].last) {
        idle := Idle(id);
      }
    }
  }

  /** The second loop: a group with the most streams. */
  method Heaviest(counts: map<string, nat>) returns (heaviest: string, heaviestCount: nat)
    ensures forall g :: CountIn(counts, g) <= heaviestCount
    ensures heaviestCount > 0 ==> CountIn(counts, heaviest) == heaviestCount
  {
    heaviest, heaviestCount := "", 0;
    var todo := counts.Keys;
    while todo != {}
      invariant todo <= counts.Keys
      invariant forall g :: g in counts && g !in todo ==> counts[g] <= heaviestCount
      invariant heaviestCount > 0 ==> heaviest in counts && counts[heaviest] == heaviestCount
      decreases |todo|
    {
      var g :| g in todo;
      todo := todo - {g};
      if counts[g] > heaviestCount {
        heaviest, heaviestCount := g, counts[g];
      }
    }
  }

  /** The third loop: the least recently active stream of a group. */
  method OldestOf(t: Table, group: string) returns (victim: nat)
    requires Count(t, group) > 0
    ensures victim in t && t[victim].group == group
    ensures forall id :: id in t && t[id].group == group ==> t[victim].last <= t[id].last
  {
    ghost var member: nat :| member in Members(t, group);
    var todo, found := t.Keys, false;
    victim := 0;
    while todo != {}
      invariant todo <= t.Keys
      invariant found ==> victim in t && t[victim].group == group
                          && forall id :: id in t && id !in todo && t[id].group == group ==>
                             t[victim].last <= t[id].last
      invariant !found ==> forall id :: id in t && id !in todo ==> t[id].group != group
      decreases |todo|
    {
      var id :| id in todo;
      todo := todo - {id};
      if t[id].group == group && (!found || t[id].last < t[victim].last) {
        victim, found := id, true;
      }
    }
    assert t[member].group == group;
  }

  /** The table after `victim` made room for the new stream. */
  function Replace(t: Table, victim: nat, id: nat, e: Entry): Table {
    (t - {victim})[id := e]
  }

  lemma {:induction false} ReplaceCounts(t: Table, victim: nat, id: nat, e: Entry, g: string)
    requires victim in t && id !in t && t[victim].group != e.group
    ensures Count(Replace(t, victim, id, e), g)
            == Count(t, g) - (if g == t[victim].group then 1 else 0) + (if g == e.group then 1 else 0)
  {
    if g == t[victim].group {
      VictimLeaves(t, victim, id, e);
    } else {
      OthersStay(t, victim, id, e, g);
    }
  }

  lemma {:induction false} VictimLeaves(t: Table, victim: nat, id: nat, e: Entry)
    requires victim in t && id !in t && t[victim].group != e.group
    ensures Count(t, t[victim].group) == Count(Replace(t, victim, id, e), t[victim].group) + 1
  {
    var g, t' := t[victim].group, Replace(t, victim, id, e);
    assert Members(t, g) == Members(t', g) + {victim} && victim !in Members(t', g);
  }

  lemma {:induction false} OthersStay(t: Table, victim: nat, id: nat, e: Entry, g: string)
    requires victim in t && id !in t && t[victim].group != g
    ensures Count(Replace(t, victim, id, e), g) == Count(t, g) + (if g == e.group then 1 else 0)
  {
    var t' := Replace(t, victim, id, e);
    if g == e.group {
      assert Members(t', g) == Members(t, g) + {id};
    } else {
      assert Members(t', g) == Members(t, g);
    }
  }

  // ---- The sum of squared group counts ----

  function Groups(t: Table): set<string> {
    set id | id in t :: t[id].group
  }

  ghost function SumSquares(groups: set<string>, t: Table): nat {
    if groups == {} then 0
    else
      var g :| g in groups;
      Count(t, g) * Count(t, g) + SumSquares(groups - {g}, t)
  }

  ghost function Imbalance(t: Table): nat {
    SumSquares(Groups(t), t)
  }

  lemma {:induction false} SumSquaresExtract(groups: set<string>, t: Table, g: string)
    requires g in groups
    ensures SumSquares(groups, t) == Count(t, g) * Count(t, g) + SumSquares(groups - {g}, t)
    decreases |groups|
  {
    var first :| first in groups
                 && SumSquares(groups, t) == Count(t, first) * Count(t, first) + SumSquares(groups - {first}, t);
    if first != g {
      SumSquaresExtract(groups - {first}, t, g);
      SumSquaresExtract(groups - {g}, t, first);
      assert groups - {first} - {g} == groups - {g} - {first};
    }
  }

  lemma {:induction false} SumSquaresSame(groups: set<string>, t: Table, t': Table)
    requires forall g :: g in groups ==> Count(t, g) == Count(t', g)
    ensures SumSquares(groups, t) == SumSquares(groups, t')
    decreases |groups|
  {
    if groups != {} {
      var g :| g in groups;
      SumSquaresExtract(groups, t, g);
      SumSquaresExtract(groups, t', g);
      SumSquaresSame(groups - {g}, t, t');
    }
  }

  /** Groups without streams add nothing. */
  lemma {:induction false} ImbalanceOver(groups: set<string>, t: Table)
    requires Groups(t) <= groups
    ensures SumSquares(groups, t) == Imbalance(t)
    decreases |groups|
  {
    if groups != Groups(t) {
      assert !(groups <= Groups(t));
      var g :| g in groups && g !in Groups(t);
      assert Members(t, g) == {};
      SumSquaresExtract(groups, t, g);
      ImbalanceOver(groups - {g}, t);
    }
  }

  /** A fair-share replacement lowers the sum of squared group counts by at least two and leaves
      the group that lost a stream with at least as many as the requester. */
  lemma {:induction false} FairShareDecreases(t: Table, victim: nat, id: nat, e: Entry)
    requires victim in t && id !in t && Count(t, t[victim].group) >= Count(t, e.group) + 2
    ensures Imbalance(Replace(t, victim, id, e)) + 2 <= Imbalance(t)
    ensures Count(Replace(t, victim, id, e), t[victim].group) >= Count(Replace(t, victim, id, e), e.group)
  {
    var t', h, r := Replace(t, victim, id, e), t[victim].group, e.group;
    var all := Groups(t) + {r};
    forall g ensures Count(t', g) == Count(t, g) - (if g == h then 1 else 0) + (if g == r then 1 else 0) {
      ReplaceCounts(t, victim, id, e, g);
    }
    ImbalanceOver(all, t);
    ImbalanceOver(all, t');
    SumSquaresExtract(all, t, h);
    SumSquaresExtract(all - {h}, t, r);
    SumSquaresExtract(all, t', h);
    SumSquaresExtract(all - {h}, t', r);
    SumSquaresSame(all - {h} - {r}, t, t');
    SquaresShrink(Count(t, h), Count(t, r));
  }

  lemma {:induction false} SquaresShrink(h: int, r: int)
    requires h >= r + 2
    ensures (h - 1) * (h - 1) + (r + 1) * (r + 1) + 2 <= h * h + r * r
  {
  }

  // ---- Runs of opens at the stream limit ----

  /** The same streams in the same groups, whatever happened to their activity times. */
  predicate SameStreams(t: Table, t': Table) {
    t.Keys == t'.Keys && forall id :: id in t ==> t[id].group == t'[id].group
  }

  /** One open at the limit that was admitted by fair share, after which, until the next, any stream
      may have been active. */
  ghost predicate FairOpen(t: Table, t': Table) {
    exists victim: nat, id: nat, e: Entry, cutoff: int ::
      Policy(t, e.group, cutoff, FairShare(victim)) && id !in t && SameStreams(Replace(t, victim, id, e), t')
  }

  ghost predicate FairRun(ts: seq<Table>) {
    forall k :: 0 <= k < |ts| - 1 ==> FairOpen(ts[k], ts[k + 1])
  }

  lemma {:induction false} SquaresByGroup(groups: set<string>, t: Table, t': Table)
    requires SameStreams(t, t')
    ensures SumSquares(groups, t) == SumSquares(groups, t')
  {
    forall g | g in groups
      ensures Count(t, g) == Count(t', g)
    {
      assert Members(t, g) == Members(t', g);
    }
    SumSquaresSame(groups, t, t');
  }

  /** Activity does not change the imbalance. */
  lemma {:induction false} ImbalanceByGroup(t: Table, t': Table)
    requires SameStreams(t, t')
    ensures Imbalance(t) == Imbalance(t')
  {
    SquaresByGroup(Groups(t), t, t');
    assert Groups(t) == Groups(t');
  }

  lemma {:induction false} FairOpenDecreases(t: Table, t': Table)
    requires FairOpen(t, t')
    ensures Imbalance(t') + 2 <= Imbalance(t)
  {
    var victim: nat, id: nat, e: Entry, cutoff: int :|
      Policy(t, e.group, cutoff, FairShare(victim)) && id !in t && SameStreams(Replace(t, victim, id, e), t');
    FairShareDecreases(t, victim, id, e);
    ImbalanceByGroup(Replace(t, victim, id, e), t');
  }

  /** A run of opens admitted only by fair share is finite, whatever the streams carry meanwhile: at
      most half the initial sum of squares, hence at most half the square of the stream limit. */
  lemma {:induction false} FairRunsEnd(ts: seq<Table>)
    requires |ts| > 0 && FairRun(ts)
    ensures 2 * (|ts| - 1) + Imbalance(ts[|ts| - 1]) <= Imbalance(ts[0]) <= |ts[0]| * |ts[0]|
    decreases |ts|
  {
    ImbalanceBound(ts[0]);
    if |ts| > 1 {
      assert FairOpen(ts[0], ts[1]);
      FairOpenDecreases(ts[0], ts[1]);
      var rest := ts[1..];
      assert forall k :: 0 <= k < |rest| ==> rest[k] == ts[k + 1];
      FairRunsEnd(rest);
    }
  }

  function MembersOf(t: Table, groups: set<string>): set<nat> {
    set id | id in t && t[id].group in groups
  }

  ghost function SumCounts(groups: set<string>, t: Table): nat {
    |MembersOf(t, groups)|
  }

  lemma {:induction false} SquaresBelow(groups: set<string>, t: Table)
    ensures SumSquares(groups, t) <= |t| * SumCounts(groups, t)
    decreases |groups|
  {
    if groups == {} {
      assert SumSquares(groups, t) == 0;
    } else {
      var g :| g in groups;
      SumSquaresExtract(groups, t, g);
      SquaresBelow(groups - {g}, t);
      SumCountsExtract(groups, t, g);
      MulBound(Count(t, g), |t|, SumCounts(groups - {g}, t));
    }
  }

  lemma {:induction false} SumCountsExtract(groups: set<string>, t: Table, g: string)
    requires g in groups
    ensures SumCounts(groups, t) == Count(t, g) + SumCounts(groups - {g}, t)
    ensures Count(t, g) <= |t|
  {
    var mine, rest := Members(t, g), MembersOf(t, groups - {g});
    assert mine !! rest;
    assert MembersOf(t, groups) == mine + rest;
    SubsetIsNoLarger(mine, t.Keys);
  }

  lemma {:induction false} MulBound(c: nat, n: nat, rest: nat)
    requires c <= n
    ensures c * c + n * rest <= n * (c + rest)
  {
    assert c * c <= n * c;
  }

  lemma {:induction false} ImbalanceBound(t: Table)
    ensures Imbalance(t) <= |t| * |t|
  {
    SquaresBelow(Groups(t), t);
    assert MembersOf(t, Groups(t)) == t.Keys;
  }
}
