/** What an accumulator holds for a subscription over all days, and how batches change it. */
module Attribution {
  import opened Bandwidth

  function Amount(entries: Entries, k: Key, d: Direction): nat {
    if d.Ingress? then In(entries, k) else Out(entries, k)
  }

  function Share(entries: Entries, k: Key, s: Subscription, d: Direction): nat {
    if k.sub == s then Amount(entries, k, d) else 0
  }

  ghost function SumKeys(keys: set<Key>, entries: Entries, s: Subscription, d: Direction): nat {
    if keys == {} then 0
    else
      var k :| k in keys;
      Share(entries, k, s, d) + SumKeys(keys - {k}, entries, s, d)
  }

  /** The bytes of one subscription in one direction, summed over its days. */
  ghost function SumDays(entries: Entries, s: Subscription, d: Direction): nat {
    SumKeys(entries.Keys, entries, s, d)
  }

  lemma {:induction false} SumKeysExtract(keys: set<Key>, entries: Entries, s: Subscription, d: Direction, k: Key)
    requires k in keys
    ensures SumKeys(keys, entries, s, d) == Share(entries, k, s, d) + SumKeys(keys - {k}, entries, s, d)
    decreases |keys|
  {
    var first :| first in keys
      && SumKeys(keys, entries, s, d) == Share(entries, first, s, d) + SumKeys(keys - {first}, entries, s, d);
    if first != k {
      SumKeysExtract(keys - {first}, entries, s, d, k);
      SumKeysExtract(keys - {k}, entries, s, d, first);
      assert keys - {first} - {k} == keys - {k} - {first};
    }
  }

  lemma {:induction false} SumKeysSame(keys: set<Key>, a: Entries, b: Entries, s: Subscription, d: Direction)
    requires forall k :: k in keys ==> Share(a, k, s, d) == Share(b, k, s, d)
    ensures SumKeys(keys, a, s, d) == SumKeys(keys, b, s, d)
    decreases |keys|
  {
    if keys != {} {
      var k :| k in keys;
      SumKeysExtract(keys, a, s, d, k);
      SumKeysExtract(keys, b, s, d, k);
      SumKeysSame(keys - {k}, a, b, s, d);
    }
  }

  /** Keys without an entry add nothing. */
  lemma {:induction false} SumKeysOver(keys: set<Key>, entries: Entries, s: Subscription, d: Direction)
    requires entries.Keys <= keys
    ensures SumKeys(keys, entries, s, d) == SumDays(entries, s, d)
    decreases |keys|
  {
    if k :| k in keys && k !in entries {
      SumKeysExtract(keys, entries, s, d, k);
      SumKeysOver(keys - {k}, entries, s, d);
    } else {
      assert keys == entries.Keys;
    }
  }

  /** An accepted batch adds to a subscription, over all days, exactly the bytes it has for it. */
  lemma {:induction false} BatchAddsOverDays(
    entries: Entries, incs: seq<Increment>, day: int, s: Subscription, d: Direction)
    ensures SumDays(Added(entries, incs, day), s, d) == SumDays(entries, s, d) + SumOf(incs, s, d)
  {
    var added, here := Added(entries, incs, day), Key(s, day);
    var all := entries.Keys + added.Keys + {here};
    SumKeysOver(all, entries, s, d);
    SumKeysOver(all, added, s, d);
    SumKeysExtract(all, entries, s, d, here);
    SumKeysExtract(all, added, s, d, here);
    forall k | k in all
      ensures Share(added, k, s, d) == Share(entries, k, s, d) + (if k == here then SumOf(incs, s, d) else 0)
    {
      BatchAddsItsBytes(entries, incs, day, k);
    }
    SumKeysSame(all - {here}, entries, added, s, d);
  }

  /** Pruning takes nothing from the days that stay. */
  lemma {:induction false} PruningShrinks(entries: Entries, day: int, s: Subscription, d: Direction)
    ensures SumDays(Pruned(entries, day), s, d) <= SumDays(entries, s, d)
  {
    SumKeysOver(entries.Keys, Pruned(entries, day), s, d);
    SumKeysLess(entries.Keys, Pruned(entries, day), entries, s, d);
  }

  lemma {:induction false} SumKeysLess(keys: set<Key>, a: Entries, b: Entries, s: Subscription, d: Direction)
    requires forall k :: k in keys ==> Share(a, k, s, d) <= Share(b, k, s, d)
    ensures SumKeys(keys, a, s, d) <= SumKeys(keys, b, s, d)
    decreases |keys|
  {
    if keys != {} {
      var k :| k in keys;
      SumKeysExtract(keys, a, s, d, k);
      SumKeysExtract(keys, b, s, d, k);
      SumKeysLess(keys - {k}, a, b, s, d);
    }
  }

  /** A subscription without entries has nothing. */
  lemma {:induction false} NoneOf(entries: Entries, s: Subscription, d: Direction)
    requires forall k :: k in entries ==> k.sub != s
    ensures SumDays(entries, s, d) == 0
  {
    var none: Entries := map[];
    SumKeysSame(entries.Keys, entries, none, s, d);
    SumKeysOver(entries.Keys, none, s, d);
  }

  /** Between two moments the accumulator grew, for every subscription and direction, by exactly
      what was newly logged. */
  ghost predicate Booked(entries: Entries, log: seq<Increment>, entries': Entries, log': seq<Increment>) {
    forall s, d ::
      SumDays(entries', s, d) - SumDays(entries, s, d) == SumOf(log', s, d) - SumOf(log, s, d)
  }

  lemma {:induction false} BookedOne(entries: Entries, log: seq<Increment>, incs: seq<Increment>, day: int)
    requires forall s, d :: SumOf(log + incs, s, d) == SumOf(log, s, d) + SumOf(incs, s, d)
    ensures Booked(entries, log, Added(entries, incs, day), log + incs)
  {
    forall s, d
      ensures SumDays(Added(entries, incs, day), s, d) - SumDays(entries, s, d)
              == SumOf(log + incs, s, d) - SumOf(log, s, d)
    {
      BatchAddsOverDays(entries, incs, day, s, d);
    }
  }

  lemma {:induction false} BookedThen(
    a: Entries, la: seq<Increment>, b: Entries, lb: seq<Increment>, c: Entries, lc: seq<Increment>)
    requires Booked(a, la, b, lb) && Booked(b, lb, c, lc)
    ensures Booked(a, la, c, lc)
  {
    forall s, d
      ensures SumDays(c, s, d) - SumDays(a, s, d) == SumOf(lc, s, d) - SumOf(la, s, d)
    {
      assert SumDays(b, s, d) - SumDays(a, s, d) == SumOf(lb, s, d) - SumOf(la, s, d);
    }
  }
}
