/** Limits on what is held at once, in all and per source (go/cmd/blindport-relay/admission.go). */
module SourceLimiter {

  type Source = nat

  /** What acquire returns: a release that works once. */
  class Lease {
    const source: Source
    var released: bool

    constructor (source: Source)
      ensures this.source == source && !released
    {
      this.source, released := source, false;
    }
  }

  ghost function Of(open: set<Lease>, s: Source): set<Lease> {
    set l | l in open && l.source == s
  }

  lemma {:induction false} OneMore(open: set<Lease>, l: Lease, s: Source)
    requires l !in open
    ensures |Of(open + {l}, s)| == |Of(open, s)| + (if l.source == s then 1 else 0)
  {
    if l.source == s {
      assert Of(open + {l}, s) == Of(open, s) + {l};
    } else {
      assert Of(open + {l}, s) == Of(open, s);
    }
  }

  ghost predicate Counts(sources: map<Source, int>, open: set<Lease>) {
    forall s :: |Of(open, s)| == (if s in sources then sources[s] else 0) && (s in sources ==> sources[s] > 0)
  }

  lemma {:induction false} CountsMore(sources: map<Source, int>, open: set<Lease>, l: Lease)
    requires Counts(sources, open) && l !in open
    ensures Counts(sources[l.source := if l.source in sources then sources[l.source] + 1 else 1], open + {l})
  {
    var s' := sources[l.source := if l.source in sources then sources[l.source] + 1 else 1];
    forall s
      ensures |Of(open + {l}, s)| == (if s in s' then s'[s] else 0) && (s in s' ==> s'[s] > 0)
    {
      OneMore(open, l, s);
    }
  }

  lemma {:induction false} CountsLess(sources: map<Source, int>, rest: set<Lease>, l: Lease)
    requires Counts(sources, rest + {l}) && l !in rest
    ensures l.source in sources
    ensures Counts(
              if sources[l.source] == 1 then sources - {l.source} else sources[l.source := sources[l.source] - 1],
              rest)
  {
    OneMore(rest, l, l.source);
    var s' := if sources[l.source] == 1 then sources - {l.source} else sources[l.source := sources[l.source] - 1];
    forall s
      ensures |Of(rest, s)| == (if s in s' then s'[s] else 0) && (s in s' ==> s'[s] > 0)
    {
      OneMore(rest, l, s);
    }
  }

  class SourceLimiter {
    const maxTotal: int
    const perSource: int
    var total: int
    var sources: map<Source, int>
    ghost var open: set<Lease>

    constructor (maxTotal: int, perSource: int)
      requires maxTotal > 0 && perSource > 0
      ensures Valid() && open == {} && this.maxTotal == maxTotal && this.perSource == perSource
    {
      this.maxTotal, this.perSource, total, sources, open := maxTotal, perSource, 0, map[], {};
    }

    /** The counters are the leases that are open, in all and per source, within both limits. */
    ghost predicate Valid()
      reads this, open
    {
      && total == |open| <= maxTotal && Counts(sources, open)
      && (forall s :: s in sources ==> sources[s] <= perSource)
      && (forall l :: l in open ==> !l.released)
    }

    /** `direct` is false for an address that is no IP address. */
    method Acquire(direct: bool, source: Source) returns (ok: bool, lease: Lease?)
      requires Valid()
      modifies this
      ensures Valid()
      ensures ok <==> direct && old(|open|) < maxTotal && |Of(old(open), source)| < perSource
      ensures ok ==> lease != null && fresh(lease) && lease.source == source && open == old(open) + {lease}
      ensures !ok ==> open == old(open) && total == old(total) && sources == old(sources)
    {
      assert |Of(open, source)| == (if source in sources then sources[source] else 0);
      if !direct || total >= maxTotal || (if source in sources then sources[source] else 0) >= perSource {
        return false, null;
      }
      var l := new Lease(source);
      CountsMore(sources, open, l);
      total := total + 1;
      sources := sources[source := if source in sources then sources[source] + 1 else 1];
      open := open + {l};
      return true, l;
    }

    /** Releasing twice is releasing once. */
    method Release(lease: Lease)
      requires Valid() && (lease.released || lease in open)
      modifies this, lease
      ensures Valid() && lease.released && open == old(open) - {lease}
    {
      if lease.released {
        assert lease !in open;
        return;
      }
      ghost var rest := open - {lease};
      assert open == rest + {lease};
      CountsLess(sources, rest, lease);
      lease.released := true;
      total := total - 1;
      sources := sources[lease.source := sources[lease.source] - 1];
      if sources[lease.source] == 0 {
        sources := sources - {lease.source};
      }
      open := rest;
      assert Counts(sources, rest);
    }
  }
}
