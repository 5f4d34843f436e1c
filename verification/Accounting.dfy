/** Turning kernel counters into attributed bytes (go/cmd/blindport-relay/wireguard_accounting.go)
    and the cycle that drives it (go/cmd/blindport-relay/wireguard.go).

    Bindings are a map from prefix to subscription; the source keeps them as a list sorted by prefix. */
module Accounting {
  import opened Collections
  import opened Bandwidth

  type Prefix = string
  type Bindings = map<Prefix, Subscription>
  type Counters = map<Subscription, Totals>

  /** One row of what Read returns. */
  datatype Row = Row(sub: Subscription, ingress: int, egress: int)

  /** The kernel's accounting table. */
  datatype Kernel = NoTable | Table(bindings: Bindings, counters: Counters)

  function Get(c: Counters, s: Subscription, d: Direction): nat {
    if s !in c then 0 else if d.Ingress? then c[s].ingress else c[s].egress
  }

  function Plus(a: Counters, b: Counters): Counters {
    map s | s in a.Keys + b.Keys ::
      Totals(Get(a, s, Ingress) + Get(b, s, Ingress), Get(a, s, Egress) + Get(b, s, Egress))
  }

  function Live(k: Kernel): Counters {
    if k.NoTable? then map[] else k.counters
  }

  /** zeroCounterTotals. */
  function Zeros(b: Bindings): Counters {
    map s | s in b.Values :: Totals(0, 0)
  }

  ghost predicate AtMost(a: Counters, b: Counters) {
    forall s, d :: Get(a, s, d) <= Get(b, s, d)
  }

  lemma {:induction false} PlusAdds(a: Counters, b: Counters, s: Subscription, d: Direction)
    ensures Get(Plus(a, b), s, d) == Get(a, s, d) + Get(b, s, d)
  {
  }

  lemma {:induction false} PlusAtMost(a: Counters, b: Counters, c: Counters, e: Counters)
    requires AtMost(a, c) && AtMost(b, e)
    ensures AtMost(Plus(a, b), Plus(c, e))
  {
    forall s, d
      ensures Get(Plus(a, b), s, d) <= Get(Plus(c, e), s, d)
    {
      PlusAdds(a, b, s, d);
      PlusAdds(c, e, s, d);
    }
  }

  lemma {:induction false} PlusGrows(a: Counters, b: Counters, c: Counters)
    requires AtMost(a, b)
    ensures AtMost(a, Plus(b, c))
  {
    forall s, d
      ensures Get(a, s, d) <= Get(Plus(b, c), s, d)
    {
      PlusAdds(b, c, s, d);
    }
  }

  // ---- One collection ----

  /** The rows are exactly one per bound subscription, with no negative totals. */
  ghost predicate Complete(rows: seq<Row>, b: Bindings) {
    |rows| == |b| && (forall i :: 0 <= i < |rows| ==> RowOk(rows[i], b)) && NoneTwice(rows)
  }

  predicate RowOk(row: Row, b: Bindings) {
    row.sub in b.Values && row.ingress >= 0 && row.egress >= 0
  }

  predicate NoneTwice(rows: seq<Row>) {
    forall i, j :: 0 <= i < j < |rows| ==> rows[i].sub != rows[j].sub
  }

  predicate Reads(rows: seq<Row>, s: Subscription) {
    exists i :: 0 <= i < |rows| && rows[i].sub == s
  }

  predicate Stores(current: Counters, row: Row, b: Bindings) {
    RowOk(row, b) && row.sub in current && current[row.sub] == Totals(row.ingress, row.egress)
  }

  /** `current` is `rows` by subscription. */
  predicate Holds(current: Counters, rows: seq<Row>, b: Bindings) {
    && |current| == |rows| && NoneTwice(rows)
    && (forall s :: s in current ==> Reads(rows, s))
    && (forall i :: 0 <= i < |rows| ==> Stores(current, rows[i], b))
  }

  lemma {:induction false} RowFound(rows: seq<Row>, row: Row, s: Subscription)
    requires s == row.sub || Reads(rows, s)
    ensures Reads(rows + [row], s)
  {
    if s == row.sub {
      assert (rows + [row])[|rows|].sub == s;
    } else {
      var i :| 0 <= i < |rows| && rows[i].sub == s;
      assert (rows + [row])[i].sub == s;
    }
  }

  lemma {:induction false} StoresNext(current: Counters, rows: seq<Row>, b: Bindings, row: Row)
    requires NoneTwice(rows) && forall i :: 0 <= i < |rows| ==> Stores(current, rows[i], b)
    requires RowOk(row, b) && row.sub !in current
    ensures NoneTwice(rows + [row])
    ensures forall i :: 0 <= i < |rows + [row]| ==>
            Stores(current[row.sub := Totals(row.ingress, row.egress)], (rows + [row])[i], b)
  {
    assert forall i :: 0 <= i < |rows| ==> Stores(current, rows[i], b) && rows[i].sub != row.sub;
  }

  lemma {:induction false} ReadsNext(current: Counters, rows: seq<Row>, row: Row, next: Counters)
    requires (forall s :: s in current ==> Reads(rows, s)) && row.sub !in current
    requires next.Keys == current.Keys + {row.sub}
    ensures |next| == |current| + 1 && forall s :: s in next ==> Reads(rows + [row], s)
  {
    assert |next| == |next.Keys| && |current| == |current.Keys|;
    forall s | s in next
      ensures Reads(rows + [row], s)
    {
      RowFound(rows, row, s);
    }
  }

  lemma {:induction false} HoldsNext(current: Counters, rows: seq<Row>, b: Bindings, row: Row)
    requires Holds(current, rows, b) && RowOk(row, b) && row.sub !in current
    ensures Holds(current[row.sub := Totals(row.ingress, row.egress)], rows + [row], b)
  {
    StoresNext(current, rows, b, row);
    ReadsNext(current, rows, row, current[row.sub := Totals(row.ingress, row.egress)]);
  }

  lemma {:induction false} RepeatedRow(current: Counters, rows: seq<Row>, b: Bindings, i: nat)
    requires i < |rows| && Holds(current, rows[..i], b) && rows[i].sub in current
    ensures !NoneTwice(rows)
  {
    var j :| 0 <= j < i && rows[..i][j].sub == rows[i].sub;
    assert rows[j].sub == rows[i].sub;
  }

  lemma {:induction false} HoldsAll(current: Counters, rows: seq<Row>, b: Bindings)
    requires Holds(current, rows, b) && |rows| == |b|
    ensures current.Keys == b.Values && Complete(rows, b)
  {
    ValuesNoMoreThanKeys(b);
    forall s | s in current
      ensures s in b.Values
    {
      var i :| 0 <= i < |rows| && rows[i].sub == s;
    }
    SubsetOfSameSize(current.Keys, b.Values);
  }

  lemma {:induction false} ValuesNoMoreThanKeys(b: Bindings)
    ensures |b.Values| <= |b|
    decreases |b|
  {
    if p :| p in b {
      var rest := b - {p};
      ValuesNoMoreThanKeys(rest);
      assert b.Values == rest.Values + {b[p]} by {
        forall v | v in b.Values
          ensures v in rest.Values + {b[p]}
        {
          var q :| q in b && b[q] == v;
          assert q != p ==> q in rest && rest[q] == v;
        }
      }
      assert |rest.Values + {b[p]}| <= |rest.Values| + 1;
      assert rest.Keys == b.Keys - {p};
    } else {
      assert b == map[];
    }
  }

  lemma {:induction false} SubsetOfSameSize(a: set<Subscription>, b: set<Subscription>)
    requires a <= b && |b| <= |a|
    ensures a == b
  {
    if x :| x in b && x !in a {
      assert a <= b - {x};
      SubsetIsNoLarger(a, b - {x});
    }
  }

  /** The first part of collect: the readings by subscription, or an error. */
  method Current(rows: seq<Row>, b: Bindings) returns (ok: bool, current: Counters)
    ensures ok <==> Complete(rows, b)
    ensures ok ==> current.Keys == b.Values && Holds(current, rows, b)
  {
    current := map[];
    if |rows| != |b| {
      return false, current;
    }
    for i := 0 to |rows|
      invariant Holds(current, rows[..i], b)
    {
      var row := rows[i];
      if row.sub !in b.Values || row.ingress < 0 || row.egress < 0 {
        return false, current;
      }
      if row.sub in current {
        RepeatedRow(current, rows, b, i);
        return false, current;
      }
      HoldsNext(current, rows[..i], b, row);
      assert rows[..i + 1] == rows[..i] + [row];
      current := current[row.sub := Totals(row.ingress, row.egress)];
    }
    assert rows[..|rows|] == rows;
    HoldsAll(current, rows, b);
    ok := true;
  }

  /** What one subscription's readings add to the batch: deltaIncrement in both directions. */
  function Deltas(s: Subscription, canonical: bool, was: Counters, now: Counters): seq<Increment> {
    Delta(s, canonical, Ingress, Get(now, s, Ingress) - Get(was, s, Ingress))
    + Delta(s, canonical, Egress, Get(now, s, Egress) - Get(was, s, Egress))
  }

  function Delta(s: Subscription, canonical: bool, d: Direction, delta: int): seq<Increment> {
    if delta < 0 then [] else [Increment(s, canonical, d, delta)]
  }

  lemma {:induction false} SumOfConcat(a: seq<Increment>, b: seq<Increment>, s: Subscription, d: Direction)
    ensures SumOf(a + b, s, d) == SumOf(a, s, d) + SumOf(b, s, d)
    decreases |b|
  {
    if |b| == 0 {
      assert a + b == a;
    } else {
      var n := |b| - 1;
      SumOfConcat(a, b[..n], s, d);
      assert (a + b)[..|a| + n] == a + b[..n];
    }
  }

  /** What went through since the last reading; nothing if the counter went back. */
  function Gain(was: Counters, now: Counters, s: Subscription, d: Direction): nat {
    if Get(now, s, d) > Get(was, s, d) then Get(now, s, d) - Get(was, s, d) else 0
  }

  lemma {:induction false} SumOfDelta(
    t: Subscription, canonical: bool, e: Direction, delta: int, s: Subscription, d: Direction)
    ensures SumOf(Delta(t, canonical, e, delta), s, d) == if s == t && d == e && delta > 0 then delta else 0
  {
    var incs := Delta(t, canonical, e, delta);
    if |incs| > 0 {
      assert SumOf(incs[..0], s, d) == 0;
    }
  }

  lemma {:induction false} SumOfDeltas(
    t: Subscription, canonical: bool, was: Counters, now: Counters, s: Subscription, d: Direction)
    ensures SumOf(Deltas(t, canonical, was, now), s, d) == if s == t then Gain(was, now, s, d) else 0
  {
    var i, e := Get(now, t, Ingress) - Get(was, t, Ingress), Get(now, t, Egress) - Get(was, t, Egress);
    SumOfDelta(t, canonical, Ingress, i, s, d);
    SumOfDelta(t, canonical, Egress, e, s, d);
    SumOfConcat(Delta(t, canonical, Ingress, i), Delta(t, canonical, Egress, e), s, d);
  }

  /** `incs` has the gain from `was` to `now` of each subscription in `done`, and no more. */
  ghost predicate Gains(incs: seq<Increment>, was: Counters, now: Counters, done: set<Subscription>) {
    forall s, d :: SumOf(incs, s, d) == if s in done then Gain(was, now, s, d) else 0
  }

  lemma {:induction false} GainsNext(
    incs: seq<Increment>, was: Counters, now: Counters, done: set<Subscription>, t: Subscription, canonical: bool)
    requires Gains(incs, was, now, done) && t !in done
    ensures Gains(incs + Deltas(t, canonical, was, now), was, now, done + {t})
  {
    var more := Deltas(t, canonical, was, now);
    forall s, d
      ensures SumOf(incs + more, s, d) == if s in done + {t} then Gain(was, now, s, d) else 0
    {
      SumOfConcat(incs, more, s, d);
      SumOfDeltas(t, canonical, was, now, s, d);
    }
  }

  /** No increment is negative, and each is as canonical as its subscription. */
  predicate Proper(incs: seq<Increment>, canonical: Subscription -> bool) {
    forall i :: 0 <= i < |incs| ==> incs[i].count >= 0 && incs[i].canonical == canonical(incs[i].sub)
  }

  lemma {:induction false} ProperNext(
    incs: seq<Increment>, s: Subscription, was: Counters, now: Counters, canonical: Subscription -> bool)
    requires Proper(incs, canonical)
    ensures Proper(incs + Deltas(s, canonical(s), was, now), canonical)
  {
    assert Proper(Deltas(s, canonical(s), was, now), canonical);
  }

  /** The second part of collect: increments that add up to each subscription's gain. */
  method Increments(was: Counters, now: Counters, canonical: Subscription -> bool) returns (incs: seq<Increment>)
    ensures Gains(incs, was, now, now.Keys) && Proper(incs, canonical)
  {
    incs := [];
    var todo := now.Keys;
    while todo != {}
      invariant todo <= now.Keys && Gains(incs, was, now, now.Keys - todo) && Proper(incs, canonical)
      decreases |todo|
    {
      var s :| s in todo;
      GainsNext(incs, was, now, now.Keys - todo, s, canonical(s));
      assert now.Keys - (todo - {s}) == now.Keys - todo + {s};
      ProperNext(incs, s, was, now, canonical);
      incs, todo := incs + Deltas(s, canonical(s), was, now), todo - {s};
    }
  }

  // ---- The bindings of a desired state ----

  datatype Binding = Binding(prefix: Prefix, sub: Subscription)

  /** `listed` is false when the response has no list of bindings at all. */
  datatype Wanted = Wanted(listed: bool, list: seq<Binding>, active: seq<Prefix>, revision: string)

  /** Every binding is well-formed, no prefix and no subscription is bound twice, and the bindings
      are as many as the active prefixes and cover them. */
  ghost predicate Coherent(w: Wanted, validPrefix: Prefix -> bool, canonical: Subscription -> bool) {
    && w.listed && |w.list| == |w.active|
    && AllValid(w.list, validPrefix, canonical) && Distinct(w.list)
    && (forall p :: p in w.active ==> Binds(w.list, p))
  }

  predicate AllValid(list: seq<Binding>, validPrefix: Prefix -> bool, canonical: Subscription -> bool) {
    forall i :: 0 <= i < |list| ==> validPrefix(list[i].prefix) && canonical(list[i].sub)
  }

  predicate Distinct(list: seq<Binding>) {
    forall i, j :: 0 <= i < j < |list| ==> list[i].prefix != list[j].prefix && list[i].sub != list[j].sub
  }

  ghost predicate Binds(list: seq<Binding>, p: Prefix) {
    exists i :: 0 <= i < |list| && list[i].prefix == p
  }

  /** `b` is the list as a map, with no two prefixes for one subscription. */
  ghost predicate MapOf(list: seq<Binding>, b: Bindings) {
    |b| == |list| && Distinct(list) && Agrees(list, b) && Only(list, b)
  }

  predicate Agrees(list: seq<Binding>, b: Bindings) {
    forall i :: 0 <= i < |list| ==> list[i].prefix in b && b[list[i].prefix] == list[i].sub
  }

  ghost predicate Only(list: seq<Binding>, b: Bindings) {
    forall p :: p in b ==> Binds(list, p)
  }

  lemma {:induction false} BindsNext(list: seq<Binding>, x: Binding, p: Prefix)
    requires Binds(list, p) || p == x.prefix
    ensures Binds(list + [x], p)
  {
    if p == x.prefix {
      assert (list + [x])[|list|].prefix == p;
    } else {
      var i :| 0 <= i < |list| && list[i].prefix == p;
      assert (list + [x])[i].prefix == p;
    }
  }

  lemma {:induction false} DistinctNext(list: seq<Binding>, b: Bindings, x: Binding)
    requires Distinct(list) && Agrees(list, b) && x.prefix !in b && x.sub !in b.Values
    ensures Distinct(list + [x]) && Agrees(list + [x], b[x.prefix := x.sub])
  {
    forall i | 0 <= i < |list|
      ensures list[i].prefix != x.prefix && list[i].sub != x.sub
    {
      assert b[list[i].prefix] in b.Values;
    }
  }

  lemma {:induction false} OnlyNext(list: seq<Binding>, b: Bindings, x: Binding)
    requires Only(list, b) && x.prefix !in b
    ensures Only(list + [x], b[x.prefix := x.sub]) && |b[x.prefix := x.sub]| == |b| + 1
  {
    var b' := b[x.prefix := x.sub];
    assert b'.Keys == b.Keys + {x.prefix};
    forall p | p in b'
      ensures Binds(list + [x], p)
    {
      BindsNext(list, x, p);
    }
  }

  lemma {:induction false} MapOfNext(list: seq<Binding>, b: Bindings, x: Binding)
    requires MapOf(list, b) && x.prefix !in b && x.sub !in b.Values
    ensures MapOf(list + [x], b[x.prefix := x.sub])
  {
    DistinctNext(list, b, x);
    OnlyNext(list, b, x);
  }

  lemma {:induction false} BoundTwice(list: seq<Binding>, i: nat, b: Bindings)
    requires i < |list| && MapOf(list[..i], b) && (list[i].prefix in b || list[i].sub in b.Values)
    ensures !Distinct(list)
  {
    if list[i].prefix in b {
      var j :| 0 <= j < i && list[..i][j].prefix == list[i].prefix;
      assert list[j].prefix == list[i].prefix;
    } else {
      var p :| p in b && b[p] == list[i].sub;
      var j :| 0 <= j < i && list[..i][j].prefix == p;
      assert list[j].sub == list[i].sub;
    }
  }

  /** One turn of the loop: the binding is added, or the list is not coherent. */
  lemma {:induction false} BindOne(list: seq<Binding>, i: nat, b: Bindings)
    requires i < |list| && MapOf(list[..i], b)
    ensures if list[i].prefix in b || list[i].sub in b.Values then !Distinct(list)
            else MapOf(list[..i + 1], b[list[i].prefix := list[i].sub])
  {
    if list[i].prefix in b || list[i].sub in b.Values {
      BoundTwice(list, i, b);
    } else {
      MapOfNext(list[..i], b, list[i]);
      assert list[..i + 1] == list[..i] + [list[i]];
    }
  }

  /** bandwidthBindings. */
  method BandwidthBindings(w: Wanted, validPrefix: Prefix -> bool, canonical: Subscription -> bool)
    returns (ok: bool, b: Bindings)
    ensures ok <==> Coherent(w, validPrefix, canonical)
    ensures ok ==> MapOf(w.list, b)
  {
    b := map[];
    if !w.listed || |w.list| != |w.active| {
      return false, b;
    }
    ok, b := Bind(w.list, validPrefix, canonical);
    if ok {
      ok := AllBound(w.list, b, w.active);
    }
  }

  method Bind(list: seq<Binding>, validPrefix: Prefix -> bool, canonical: Subscription -> bool)
    returns (ok: bool, b: Bindings)
    ensures ok <==> Distinct(list) && AllValid(list, validPrefix, canonical)
    ensures ok ==> MapOf(list, b)
  {
    b := map[];
    for i := 0 to |list|
      invariant MapOf(list[..i], b)
      invariant AllValid(list[..i], validPrefix, canonical)
    {
      var x := list[i];
      if !validPrefix(x.prefix) || !canonical(x.sub) {
        return false, b;
      }
      BindOne(list, i, b);
      if x.prefix in b || x.sub in b.Values {
        return false, b;
      }
      b := b[x.prefix := x.sub];
    }
    assert list[..|list|] == list;
    ok := true;
  }

  method AllBound(list: seq<Binding>, b: Bindings, active: seq<Prefix>) returns (ok: bool)
    requires MapOf(list, b)
    ensures ok <==> forall p :: p in active ==> Binds(list, p)
  {
    for i := 0 to |active|
      invariant forall j :: 0 <= j < i ==> Binds(list, active[j])
    {
      if active[i] !in b {
        assert !Binds(list, active[i]);
        assert active[i] in active;
        return false;
      }
    }
    ok := true;
  }

  /** If the active prefixes are distinct, an accepted list binds exactly them. */
  lemma {:induction false} BindsExactlyTheActive(
    w: Wanted, validPrefix: Prefix -> bool, canonical: Subscription -> bool, b: Bindings)
    requires Coherent(w, validPrefix, canonical) && MapOf(w.list, b)
    requires forall i, j :: 0 <= i < j < |w.active| ==> w.active[i] != w.active[j]
    ensures b.Keys == set p | p in w.active
  {
    var active := set p | p in w.active;
    forall p | p in active
      ensures p in b
    {
      assert Binds(w.list, p);
    }
    DistinctCount(w.active);
    if q :| q in b && q !in active {
      assert active <= b.Keys - {q};
      SubsetIsNoLarger(active, b.Keys - {q});
    }
  }

  lemma {:induction false} DistinctCount(ps: seq<Prefix>)
    requires forall i, j :: 0 <= i < j < |ps| ==> ps[i] != ps[j]
    ensures |set p | p in ps| == |ps|
    decreases |ps|
  {
    if |ps| > 0 {
      var n := |ps| - 1;
      DistinctCount(ps[..n]);
      assert (set p | p in ps) == (set p | p in ps[..n]) + {ps[n]} by {
        assert ps == ps[..n] + [ps[n]];
      }
    }
  }
}
