/** Per-subscription daily byte totals (go/cmd/blindport-relay/bandwidth.go).

    A day is a number; the source's ISO dates compare the same way as strings. */
module Bandwidth {
  import opened Collections

  const MAX_INT64 := 0x7FFF_FFFF_FFFF_FFFF
  const MAX_ENTRIES := 8500

  /** A canonical UUID, as a number. */
  type Subscription = nat

  datatype Key = Key(sub: Subscription, day: int)

  datatype Totals = Totals(ingress: nat, egress: nat)

  datatype Direction = Ingress | Egress

  /** `canonical` stands for the UUID test on the subscription ID. */
  datatype Increment = Increment(sub: Subscription, canonical: bool, direction: Direction, count: int)

  type Entries = map<Key, Totals>

  /** A missing entry counts as zero. */
  function In(entries: Entries, k: Key): nat {
    if k in entries then entries[k].ingress else 0
  }

  function Out(entries: Entries, k: Key): nat {
    if k in entries then entries[k].egress else 0
  }

  /** As int64 totals always do. */
  predicate AllFit(entries: Entries) {
    forall k :: k in entries ==> entries[k].ingress <= MAX_INT64 && entries[k].egress <= MAX_INT64
  }

  // ---- What a batch adds up to ----

  function InOf(inc: Increment): nat {
    if inc.direction.Ingress? && inc.count > 0 then inc.count else 0
  }

  function OutOf(inc: Increment): nat {
    if inc.direction.Egress? && inc.count > 0 then inc.count else 0
  }

  /** The bytes of a batch, per key. */
  function Sums(incs: seq<Increment>, day: int): Entries {
    if |incs| == 0 then map[]
    else Bump(Sums(incs[..|incs| - 1], day), incs[|incs| - 1], day)
  }

  function Bump(sums: Entries, inc: Increment, day: int): Entries {
    if inc.count <= 0 then sums
    else
      var k := Key(inc.sub, day);
      sums[k := Totals(In(sums, k) + InOf(inc), Out(sums, k) + OutOf(inc))]
  }

  predicate Wellformed(inc: Increment) {
    inc.canonical && inc.count >= 0
  }

  function NewKeys(entries: Entries, sums: Entries): set<Key> {
    set k | k in sums && k !in entries
  }

  /** No total beyond an int64, and room for the keys that are new. */
  ghost predicate WithinLimits(entries: Entries, sums: Entries) {
    TotalsFit(entries, sums) && RoomFor(entries, NewKeys(entries, sums))
  }

  ghost predicate TotalsFit(entries: Entries, sums: Entries) {
    forall k :: k in sums ==> KeyFits(entries, sums, k)
  }

  predicate RoomFor(entries: Entries, keys: set<Key>) {
    keys == {} || |entries| + |keys| <= MAX_ENTRIES
  }

  predicate KeyFits(entries: Entries, sums: Entries, k: Key) {
    In(entries, k) + In(sums, k) <= MAX_INT64 && Out(entries, k) + Out(sums, k) <= MAX_INT64
  }

  ghost predicate Acceptable(entries: Entries, incs: seq<Increment>, day: int) {
    (forall i :: 0 <= i < |incs| ==> Wellformed(incs[i])) && WithinLimits(entries, Sums(incs, day))
  }

  function Merge(entries: Entries, sums: Entries): Entries {
    entries + map k | k in sums :: Totals(In(entries, k) + In(sums, k), Out(entries, k) + Out(sums, k))
  }

  /** The entries after a batch was added. */
  function Added(entries: Entries, incs: seq<Increment>, day: int): Entries {
    Merge(entries, Sums(incs, day))
  }

  // ---- What the sums mean ----

  function SumOf(incs: seq<Increment>, sub: Subscription, direction: Direction): nat {
    if |incs| == 0 then 0
    else
      var inc := incs[|incs| - 1];
      SumOf(incs[..|incs| - 1], sub, direction)
      + (if inc.sub == sub && inc.direction == direction && inc.count > 0 then inc.count else 0)
  }

  lemma {:induction false} SumsPerSubscription(incs: seq<Increment>, day: int, sub: Subscription)
    ensures In(Sums(incs, day), Key(sub, day)) == SumOf(incs, sub, Ingress)
    ensures Out(Sums(incs, day), Key(sub, day)) == SumOf(incs, sub, Egress)
    decreases |incs|
  {
    if |incs| > 0 {
      SumsPerSubscription(incs[..|incs| - 1], day, sub);
    }
  }

  lemma {:induction false} SumsOfOneDay(incs: seq<Increment>, day: int)
    ensures forall k :: k in Sums(incs, day) ==> k.day == day
    decreases |incs|
  {
    if |incs| > 0 {
      SumsOfOneDay(incs[..|incs| - 1], day);
    }
  }

  lemma {:induction false} MergeAdds(entries: Entries, sums: Entries, k: Key)
    ensures k in Merge(entries, sums) <==> k in entries || k in sums
    ensures In(Merge(entries, sums), k) == In(entries, k) + In(sums, k)
    ensures Out(Merge(entries, sums), k) == Out(entries, k) + Out(sums, k)
  {
  }

  /** An accepted batch leaves other days alone, and each subscription's totals of the day grow by
      exactly the bytes the batch has for it. */
  lemma {:induction false} BatchAddsItsBytes(entries: Entries, incs: seq<Increment>, day: int, k: Key)
    ensures In(Added(entries, incs, day), k)
            == In(entries, k) + (if k.day == day then SumOf(incs, k.sub, Ingress) else 0)
    ensures Out(Added(entries, incs, day), k)
            == Out(entries, k) + (if k.day == day then SumOf(incs, k.sub, Egress) else 0)
    ensures k in entries ==> k in Added(entries, incs, day)
    ensures k in Added(entries, incs, day) ==> k in entries || k.day == day
  {
    SumsPerSubscription(incs, day, k.sub);
    SumsOfOneDay(incs, day);
    MergeAdds(entries, Sums(incs, day), k);
  }

  // ---- A prefix that is over a limit spoils the whole batch ----

  ghost predicate Below(sums: Entries, more: Entries) {
    forall k :: k in sums ==> k in more && In(sums, k) <= In(more, k) && Out(sums, k) <= Out(more, k)
  }

  lemma {:induction false} SumsGrow(incs: seq<Increment>, i: nat, day: int)
    requires i <= |incs|
    ensures Below(Sums(incs[..i], day), Sums(incs, day))
    decreases |incs|
  {
    if i == |incs| {
      assert incs[..i] == incs;
    } else {
      var n := |incs| - 1;
      SumsGrow(incs[..n], i, day);
      assert incs[..n][..i] == incs[..i];
    }
  }

  lemma {:induction false} OverLimitSpoils(entries: Entries, sums: Entries, more: Entries)
    requires Below(sums, more) && !WithinLimits(entries, sums)
    ensures !WithinLimits(entries, more)
  {
    if k :| k in sums && !KeyFits(entries, sums, k) {
      assert !KeyFits(entries, more, k);
    } else {
      SubsetIsNoLarger(NewKeys(entries, sums), NewKeys(entries, more));
    }
  }

  // ---- addBatch ----

  /** What the loop of addBatch has gathered when the increments so far add up to `sums`. */
  ghost predicate Gathered(entries: Entries, sums: Entries, pending: Entries, newEntries: nat) {
    Carries(entries, sums, pending) && newEntries == |NewKeys(entries, sums)| && WithinLimits(entries, sums)
  }

  ghost predicate Carries(entries: Entries, sums: Entries, pending: Entries) {
    && (forall k :: k in pending <==> k in sums)
    && (forall k :: k in pending ==> CarriesKey(entries, sums, pending, k))
  }

  predicate CarriesKey(entries: Entries, sums: Entries, pending: Entries, k: Key) {
    In(pending, k) == In(entries, k) + In(sums, k) && Out(pending, k) == Out(entries, k) + Out(sums, k)
  }

  /** The body of addBatch's loop: an error, or the totals gathered and the entries they add. */
  datatype Progress = Rejected | Gathering(pending: Entries, newEntries: nat)

  predicate Overflows(ingress: nat, egress: nat, inc: Increment) {
    || (inc.direction.Ingress? && ingress > MAX_INT64 - inc.count)
    || (inc.direction.Egress? && egress > MAX_INT64 - inc.count)
  }

  function Take(entries: Entries, pending: Entries, newEntries: nat, inc: Increment, day: int): Progress {
    if !inc.canonical || inc.count < 0 then Rejected
    else if inc.count == 0 then Gathering(pending, newEntries)
    else
      var key := Key(inc.sub, day);
      var from := if key in pending then pending else entries;
      var unseen := key !in pending && key !in entries;
      var count := if unseen then newEntries + 1 else newEntries;
      if unseen && |entries| + count > MAX_ENTRIES then Rejected
      else if Overflows(In(from, key), Out(from, key), inc) then Rejected
      else Gathering(pending[key := Totals(In(from, key) + InOf(inc), Out(from, key) + OutOf(inc))], count)
  }

  /** One increment more: gathered, or the sums are now over a limit. */
  ghost predicate Follows(entries: Entries, sums: Entries, p: Progress) {
    match p
    case Gathering(pending, newEntries) => Gathered(entries, sums, pending, newEntries)
    case Rejected => !WithinLimits(entries, sums)
  }

  lemma {:induction false} NewKeysFresh(entries: Entries, sums: Entries, sums': Entries, key: Key)
    requires sums'.Keys == sums.Keys + {key} && key !in sums && key !in entries
    ensures |NewKeys(entries, sums')| == |NewKeys(entries, sums)| + 1
  {
    assert NewKeys(entries, sums') == NewKeys(entries, sums) + {key};
  }

  lemma {:induction false} NewKeysKnown(entries: Entries, sums: Entries, sums': Entries, key: Key)
    requires sums'.Keys == sums.Keys + {key} && (key in sums || key in entries)
    ensures NewKeys(entries, sums') == NewKeys(entries, sums)
  {
  }

  lemma {:induction false} TakeCarries(
    entries: Entries, sums: Entries, pending: Entries, pending': Entries, inc: Increment, day: int)
    requires Carries(entries, sums, pending) && inc.count > 0
    requires var key := Key(inc.sub, day);
             var from := if key in pending then pending else entries;
             pending' == pending[key := Totals(In(from, key) + InOf(inc), Out(from, key) + OutOf(inc))]
    ensures Carries(entries, Bump(sums, inc, day), pending')
  {
    var key, sums' := Key(inc.sub, day), Bump(sums, inc, day);
    assert CarriesKey(entries, sums', pending', key);
    forall k | k in pending' && k != key
      ensures CarriesKey(entries, sums', pending', k)
    {
      assert CarriesKey(entries, sums, pending, k);
    }
  }

  lemma {:induction false} BumpFits(entries: Entries, sums: Entries, inc: Increment, day: int)
    requires TotalsFit(entries, sums) && inc.count > 0
    ensures TotalsFit(entries, Bump(sums, inc, day)) <==> KeyFits(entries, Bump(sums, inc, day), Key(inc.sub, day))
  {
    var key, sums' := Key(inc.sub, day), Bump(sums, inc, day);
    if KeyFits(entries, sums', key) {
      forall k | k in sums' && k != key
        ensures KeyFits(entries, sums', k)
      {
        assert KeyFits(entries, sums, k);
      }
    }
  }

  lemma {:induction false} BumpRoom(entries: Entries, sums: Entries, inc: Increment, day: int)
    requires RoomFor(entries, NewKeys(entries, sums)) && inc.count > 0
    ensures var key, count := Key(inc.sub, day), |NewKeys(entries, sums)|;
            var keys := NewKeys(entries, Bump(sums, inc, day));
            if key in sums || key in entries then keys == NewKeys(entries, sums)
            else |keys| == count + 1 && (RoomFor(entries, keys) <==> |entries| + count + 1 <= MAX_ENTRIES)
  {
    var key, sums' := Key(inc.sub, day), Bump(sums, inc, day);
    if key in sums || key in entries {
      NewKeysKnown(entries, sums, sums', key);
    } else {
      NewKeysFresh(entries, sums, sums', key);
    }
  }

  lemma {:induction false} OverflowTest(entries: Entries, sums: Entries, pending: Entries, inc: Increment, day: int)
    requires AllFit(entries) && Carries(entries, sums, pending) && TotalsFit(entries, sums) && inc.count > 0
    ensures var key := Key(inc.sub, day);
            var from := if key in pending then pending else entries;
            KeyFits(entries, Bump(sums, inc, day), key) <==> !Overflows(In(from, key), Out(from, key), inc)
  {
    var key := Key(inc.sub, day);
    if key in pending {
      assert CarriesKey(entries, sums, pending, key) && KeyFits(entries, sums, key);
    } else {
      assert key !in sums;
    }
  }

  /** What Take looks at, and what each of its tests means for the sums. */
  predicate Rejects(entries: Entries, pending: Entries, newEntries: nat, inc: Increment, day: int) {
    var key := Key(inc.sub, day);
    var from := if key in pending then pending else entries;
    || (key !in pending && key !in entries && |entries| + newEntries + 1 > MAX_ENTRIES)
    || Overflows(In(from, key), Out(from, key), inc)
  }

  lemma {:induction false} RejectsWhenOver(
    entries: Entries, sums: Entries, pending: Entries, newEntries: nat, inc: Increment, day: int)
    requires AllFit(entries) && Gathered(entries, sums, pending, newEntries) && inc.count > 0
    ensures Rejects(entries, pending, newEntries, inc, day) <==> !WithinLimits(entries, Bump(sums, inc, day))
  {
    BumpRoom(entries, sums, inc, day);
    BumpFits(entries, sums, inc, day);
    OverflowTest(entries, sums, pending, inc, day);
  }

  lemma {:induction false} TakeFollows(
    entries: Entries, sums: Entries, pending: Entries, newEntries: nat, inc: Increment, day: int)
    requires AllFit(entries) && Gathered(entries, sums, pending, newEntries)
    requires inc.canonical && inc.count > 0
    ensures Follows(entries, Bump(sums, inc, day), Take(entries, pending, newEntries, inc, day))
  {
    RejectsWhenOver(entries, sums, pending, newEntries, inc, day);
    var next := Take(entries, pending, newEntries, inc, day);
    assert next.Rejected? <==> Rejects(entries, pending, newEntries, inc, day);
    if next.Gathering? {
      TakeCarries(entries, sums, pending, next.pending, inc, day);
      BumpRoom(entries, sums, inc, day);
    }
  }

  lemma {:induction false} SumsNext(incs: seq<Increment>, i: nat, day: int)
    requires i < |incs|
    ensures Sums(incs[..i + 1], day) == Bump(Sums(incs[..i], day), incs[i], day)
  {
    assert incs[..i + 1][..i] == incs[..i];
  }

  lemma {:induction false} RejectedSpoils(entries: Entries, incs: seq<Increment>, i: nat, day: int)
    requires i < |incs|
    requires !Wellformed(incs[i]) || !WithinLimits(entries, Sums(incs[..i + 1], day))
    ensures !Acceptable(entries, incs, day)
  {
    if Wellformed(incs[i]) {
      SumsGrow(incs, i + 1, day);
      OverLimitSpoils(entries, Sums(incs[..i + 1], day), Sums(incs, day));
    }
  }

  lemma {:induction false} MergePending(entries: Entries, sums: Entries, pending: Entries)
    requires Carries(entries, sums, pending)
    ensures entries + pending == Merge(entries, sums)
  {
    forall k | k in pending
      ensures pending[k] == Totals(In(entries, k) + In(sums, k), Out(entries, k) + Out(sums, k))
    {
      assert CarriesKey(entries, sums, pending, k);
    }
  }

  lemma {:induction false} MergeFits(entries: Entries, sums: Entries)
    requires TotalsFit(entries, sums) && AllFit(entries)
    ensures AllFit(Merge(entries, sums))
  {
    forall k | k in Merge(entries, sums)
      ensures Merge(entries, sums)[k].ingress <= MAX_INT64 && Merge(entries, sums)[k].egress <= MAX_INT64
    {
      assert k in sums ==> KeyFits(entries, sums, k);
    }
  }

  /** One turn of the loop, for the batch as a whole. */
  lemma {:induction false} TurnFollows(
    entries: Entries, incs: seq<Increment>, i: nat, day: int, pending: Entries, newEntries: nat)
    requires AllFit(entries) && i < |incs| && Gathered(entries, Sums(incs[..i], day), pending, newEntries)
    ensures var next := Take(entries, pending, newEntries, incs[i], day);
            if next.Rejected? then !Acceptable(entries, incs, day)
            else Wellformed(incs[i]) && Gathered(entries, Sums(incs[..i + 1], day), next.pending, next.newEntries)
  {
    SumsNext(incs, i, day);
    if Wellformed(incs[i]) && incs[i].count > 0 {
      TakeFollows(entries, Sums(incs[..i], day), pending, newEntries, incs[i], day);
    }
    if Take(entries, pending, newEntries, incs[i], day).Rejected? {
      RejectedSpoils(entries, incs, i, day);
    }
  }

  /** The loop of addBatch: the totals gathered for the whole batch, or an error. */
  method Gather(entries: Entries, incs: seq<Increment>, day: int) returns (ok: bool, pending: Entries)
    requires AllFit(entries)
    ensures ok <==> Acceptable(entries, incs, day)
    ensures ok ==> Carries(entries, Sums(incs, day), pending)
  {
    var p := Gathering(map[], 0);
    var i := 0;
    NothingYet(entries, incs, day);
    while i < |incs|
      invariant i <= |incs| && p.Gathering? && GatheredTo(entries, incs, i, day, p)
    {
      GatheredNext(entries, incs, i, day, p);
      p := Take(entries, p.pending, p.newEntries, incs[i], day);
      if p.Rejected? {
        return false, map[];
      }
      i := i + 1;
    }
    GatheredAll(entries, incs, day, p);
    return true, p.pending;
  }

  /** The first `i` increments are well-formed and gathered. */
  ghost predicate GatheredTo(entries: Entries, incs: seq<Increment>, i: nat, day: int, p: Progress)
    requires i <= |incs| && p.Gathering?
  {
    (forall j :: 0 <= j < i ==> Wellformed(incs[j])) && Gathered(entries, Sums(incs[..i], day), p.pending, p.newEntries)
  }

  lemma {:induction false} NothingYet(entries: Entries, incs: seq<Increment>, day: int)
    ensures GatheredTo(entries, incs, 0, day, Gathering(map[], 0))
  {
    assert NewKeys(entries, Sums(incs[..0], day)) == {};
  }

  lemma {:induction false} GatheredNext(entries: Entries, incs: seq<Increment>, i: nat, day: int, p: Progress)
    requires AllFit(entries) && i < |incs| && p.Gathering? && GatheredTo(entries, incs, i, day, p)
    ensures var next := Take(entries, p.pending, p.newEntries, incs[i], day);
            if next.Rejected? then !Acceptable(entries, incs, day) else GatheredTo(entries, incs, i + 1, day, next)
  {
    TurnFollows(entries, incs, i, day, p.pending, p.newEntries);
  }

  lemma {:induction false} GatheredAll(entries: Entries, incs: seq<Increment>, day: int, p: Progress)
    requires p.Gathering? && GatheredTo(entries, incs, |incs|, day, p)
    ensures Acceptable(entries, incs, day) && Carries(entries, Sums(incs, day), p.pending)
  {
    assert incs[..|incs|] == incs;
  }

  /** addBatch up to its final loop: the totals to store, or an error. */
  method Collect(entries: Entries, incs: seq<Increment>, day: int) returns (ok: bool, pending: Entries)
    requires AllFit(entries)
    ensures ok <==> Acceptable(entries, incs, day)
    ensures ok ==> entries + pending == Added(entries, incs, day) && AllFit(entries + pending)
  {
    ok, pending := Gather(entries, incs, day);
    if ok {
      MergePending(entries, Sums(incs, day), pending);
      MergeFits(entries, Sums(incs, day));
    }
  }

  class Accumulator {
    var entries: Entries

    constructor ()
      ensures entries == map[]
    {
      entries := map[];
    }

    /** addBatch: all of a batch or none of it. */
    method AddBatch(incs: seq<Increment>, day: int) returns (ok: bool)
      requires AllFit(entries)
      modifies this
      ensures AllFit(entries)
      ensures ok <==> Acceptable(old(entries), incs, day)
      ensures entries == if ok then Added(old(entries), incs, day) else old(entries)
    {
      var pending;
      ok, pending := Collect(entries, incs, day);
      if ok {
        entries := entries + pending;
      }
    }

    method PruneBefore(day: int)
      modifies this
      ensures entries == Pruned(old(entries), day)
    {
      var todo := entries.Keys;
      while todo != {}
        invariant todo <= entries.Keys
        invariant entries == map k | k in old(entries) && (k in todo || k.day >= day) :: old(entries)[k]
        decreases |todo|
      {
        var k :| k in todo;
        todo := todo - {k};
        if k.day < day {
          entries := entries - {k};
        }
      }
    }
  }

  function Pruned(entries: Entries, day: int): Entries {
    map k | k in entries && k.day >= day :: entries[k]
  }
}
