/** Snapshots of the routed WireGuard plane and their validation (go/internal/wgnet/state.go). */
module Snapshot {

  type Prefix = string

  datatype Peer = Peer(publicKey: string, prefixes: seq<Prefix>)

  datatype DesiredState = DesiredState(managed: seq<Prefix>, peers: seq<Peer>, smtp: seq<Prefix>)

  predicate Distinct(xs: seq<string>) {
    forall i, j :: 0 <= i < j < |xs| ==> xs[i] != xs[j]
  }

  function Elements(xs: seq<string>): set<string> {
    set x | x in xs
  }

  /** The prefixes owned by any peer, peer by peer (ActivePrefixes before sorting). */
  function ActivePrefixes(peers: seq<Peer>): seq<Prefix> {
    if |peers| == 0 then [] else ActivePrefixes(peers[..|peers| - 1]) + peers[|peers| - 1].prefixes
  }

  function Owned(s: DesiredState): set<Prefix> {
    Elements(ActivePrefixes(s.peers))
  }

  /** What Validate accepts. Base64 and prefix syntax are parameters. */
  ghost predicate Valid(s: DesiredState, validKey: string -> bool, validPrefix: string -> bool) {
    && (forall i :: 0 <= i < |s.managed| ==> validPrefix(s.managed[i])) && Distinct(s.managed)
    && PeersValid(s.peers, s.managed, validKey)
    && (forall i :: 0 <= i < |s.smtp| ==> validPrefix(s.smtp[i]) && s.smtp[i] in Owned(s)) && Distinct(s.smtp)
  }

  ghost predicate PeersValid(peers: seq<Peer>, managed: seq<Prefix>, validKey: string -> bool) {
    && (forall i :: 0 <= i < |peers| ==> validKey(peers[i].publicKey) && |peers[i].prefixes| > 0)
    && (forall i, j :: 0 <= i < j < |peers| ==> peers[i].publicKey != peers[j].publicKey)
    && Elements(ActivePrefixes(peers)) <= Elements(managed)
    && Distinct(ActivePrefixes(peers))
  }

  lemma {:induction false} ActivePrefixesGrow(peers: seq<Peer>, i: nat, j: nat)
    requires i < |peers| && j <= |peers[i].prefixes|
    ensures ActivePrefixes(peers[..i]) + peers[i].prefixes[..j] <= ActivePrefixes(peers)
    decreases |peers| - i
  {
    var here := ActivePrefixes(peers[..i]) + peers[i].prefixes;
    assert peers[..i + 1][..i] == peers[..i] && peers[..i + 1][i] == peers[i];
    assert here == ActivePrefixes(peers[..i + 1]);
    assert ActivePrefixes(peers[..i]) + peers[i].prefixes[..j] <= here;
    if i + 1 < |peers| {
      ActivePrefixesGrow(peers, i + 1, 0);
      assert peers[i + 1].prefixes[..0] == [];
      assert here + [] == here;
    } else {
      assert peers[..i + 1] == peers;
    }
  }

  method CheckPrefixes(xs: seq<Prefix>, validPrefix: string -> bool) returns (ok: bool, seen: set<Prefix>)
    ensures ok <==> (forall i :: 0 <= i < |xs| ==> validPrefix(xs[i])) && Distinct(xs)
    ensures ok ==> seen == Elements(xs)
  {
    seen := {};
    for i := 0 to |xs|
      invariant seen == Elements(xs[..i])
      invariant forall k :: 0 <= k < i ==> validPrefix(xs[k])
      invariant Distinct(xs[..i])
    {
      if !validPrefix(xs[i]) {
        return false, seen;
      }
      if xs[i] in seen {
        var k :| 0 <= k < i && xs[..i][k] == xs[i];
        assert xs[k] == xs[i];
        return false, seen;
      }
      assert xs[..i + 1] == xs[..i] + [xs[i]];
      seen := seen + {xs[i]};
    }
    assert xs[..|xs|] == xs;
    return true, seen;
  }

  /** One peer's prefixes: managed, and owned by nobody so far. */
  method ClaimPrefixes(prefixes: seq<Prefix>, managed: set<Prefix>, owners: set<Prefix>, ghost before: seq<Prefix>)
    returns (ok: bool, owners': set<Prefix>)
    requires owners == Elements(before) && owners <= managed && Distinct(before)
    ensures ok <==> Elements(before + prefixes) <= managed && Distinct(before + prefixes)
    ensures ok ==> owners' == Elements(before + prefixes)
  {
    owners' := owners;
    assert before + prefixes[..0] == before;
    for j := 0 to |prefixes|
      invariant owners' == Elements(before + prefixes[..j])
      invariant owners' <= managed && Distinct(before + prefixes[..j])
    {
      var p := prefixes[j];
      ghost var acc := before + prefixes[..j];
      assert acc + [p] == before + prefixes[..j + 1];
      assert (before + prefixes)[|before| + j] == p;
      assert forall k :: 0 <= k < |acc| ==> (before + prefixes)[k] == acc[k];
      if p !in managed {
        assert p in Elements(before + prefixes);
        return false, owners';
      }
      if p in owners' {
        ghost var k :| 0 <= k < |acc| && acc[k] == p;
        return false, owners';
      }
      owners' := owners' + {p};
    }
    assert before + prefixes[..|prefixes|] == before + prefixes;
    return true, owners';
  }

  method CheckPeers(peers: seq<Peer>, managed: set<Prefix>, ghost inventory: seq<Prefix>, validKey: string -> bool)
    returns (ok: bool, owners: set<Prefix>)
    requires managed == Elements(inventory)
    ensures ok <==> PeersValid(peers, inventory, validKey)
    ensures ok ==> owners == Elements(ActivePrefixes(peers))
  {
    var keys: set<string> := {};
    owners := {};
    for i := 0 to |peers|
      invariant keys == set k | 0 <= k < i :: peers[k].publicKey
      invariant owners == Elements(ActivePrefixes(peers[..i]))
      invariant PeersValid(peers[..i], inventory, validKey)
    {
      var peer := peers[i];
      if !validKey(peer.publicKey) || peer.publicKey in keys || |peer.prefixes| == 0 {
        return false, owners;
      }
      keys := keys + {peer.publicKey};
      ghost var before := ActivePrefixes(peers[..i]);
      ghost var upTo := peers[..i + 1];
      assert upTo[..i] == peers[..i] && upTo[i] == peer;
      assert ActivePrefixes(upTo) == before + peer.prefixes;
      ok, owners := ClaimPrefixes(peer.prefixes, managed, owners, before);
      if !ok {
        ActivePrefixesGrow(peers, i, |peer.prefixes|);
        assert peer.prefixes[..|peer.prefixes|] == peer.prefixes;
        PrefixSpoils(before + peer.prefixes, ActivePrefixes(peers), managed);
        return;
      }
    }
    assert peers[..|peers|] == peers;
    return true, owners;
  }

  lemma {:induction false} PrefixSpoils(part: seq<Prefix>, whole: seq<Prefix>, managed: set<Prefix>)
    requires part <= whole && !(Elements(part) <= managed && Distinct(part))
    ensures !(Elements(whole) <= managed && Distinct(whole))
  {
    if !(Elements(part) <= managed) {
      var p :| p in Elements(part) && p !in managed;
      assert p in Elements(whole);
    }
  }

  method CheckSmtp(smtp: seq<Prefix>, managed: set<Prefix>, owners: set<Prefix>, validPrefix: string -> bool)
    returns (ok: bool)
    requires owners <= managed
    ensures ok <==> (forall i :: 0 <= i < |smtp| ==> validPrefix(smtp[i]) && smtp[i] in owners) && Distinct(smtp)
  {
    var seen: set<Prefix> := {};
    for i := 0 to |smtp|
      invariant seen == Elements(smtp[..i])
      invariant forall k :: 0 <= k < i ==> validPrefix(smtp[k]) && smtp[k] in owners
      invariant Distinct(smtp[..i])
    {
      if !validPrefix(smtp[i]) {
        return false;
      }
      if smtp[i] in seen {
        var k :| 0 <= k < i && smtp[..i][k] == smtp[i];
        assert smtp[k] == smtp[i];
        return false;
      }
      assert smtp[..i + 1] == smtp[..i] + [smtp[i]];
      seen := seen + {smtp[i]};
      if smtp[i] !in managed || smtp[i] !in owners {
        return false;
      }
    }
    assert smtp[..|smtp|] == smtp;
    return true;
  }

  /** DesiredState.Validate accepts exactly the snapshots in which prefixes and keys are well
      formed and distinct, every owned prefix is managed and owned once, and mail is allowed only
      on active prefixes. */
  method Validate(s: DesiredState, validKey: string -> bool, validPrefix: string -> bool) returns (ok: bool)
    ensures ok <==> Valid(s, validKey, validPrefix)
  {
    var managed, owners;
    ok, managed := CheckPrefixes(s.managed, validPrefix);
    if !ok {
      return;
    }
    ok, owners := CheckPeers(s.peers, managed, s.managed, validKey);
    if !ok {
      return;
    }
    ok := CheckSmtp(s.smtp, managed, owners, validPrefix);
  }
}
