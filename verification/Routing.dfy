/** Routing a hostname to a tunnel on the relay (go/cmd/blindport-relay/main.go) and accepting the
    destination in the agent (go/cmd/blindportd/main.go). The relay cuts names into labels, the agent
    compares string suffixes; both must mean the same. */
module Routing {
  import opened Claims

  // ---- Suffixes by label and by string ----

  predicate HasSuffix(s: string, t: string) {
    |t| <= |s| && s[|s| - |t|..] == t
  }

  /** `d` is `s` or follows a dot in `s` to its end. */
  predicate DotSuffix(s: string, d: string) {
    d == s || HasSuffix(s, "." + d)
  }

  /** The labels of `s` from the i-th on. */
  function From(s: string, i: nat): string
    requires i < |Split(s)|
  {
    Join(Split(s)[i..])
  }

  lemma {:induction false} SplitNext(s: string, i: nat)
    requires Dot(s) < |s| && i < |Split(s[Dot(s) + 1..])|
    ensures |Split(s)| == 1 + |Split(s[Dot(s) + 1..])| && From(s, i + 1) == From(s[Dot(s) + 1..], i)
  {
    var rest := s[Dot(s) + 1..];
    assert Split(s)[i + 1..] == Split(rest)[i..];
  }

  lemma {:induction false} SplitJoin(s: string)
    ensures From(s, 0) == s
    decreases |s|
  {
    var n := Dot(s);
    assert Split(s)[0..] == Split(s);
    if n < |s| {
      var rest := s[n + 1..];
      SplitJoin(rest);
      SplitNext(s, 0);
      assert Split(s)[1..] == Split(rest)[0..];
      assert s == s[..n] + "." + rest;
    }
  }

  lemma {:induction false} SuffixSkipsLabel(s: string, d: string)
    requires Dot(s) < |s| && HasSuffix(s, "." + d)
    ensures DotSuffix(s[Dot(s) + 1..], d)
  {
    var n, t := Dot(s), "." + d;
    var rest, at := s[n + 1..], |s| - |t|;
    assert s[at] == t[0];
    assert d == t[1..] == s[at + 1..];
    if at > n {
      assert rest[|rest| - |t|..] == s[at..];
    }
  }

  lemma {:induction false} SuffixWithLabel(s: string, d: string)
    requires Dot(s) < |s| && DotSuffix(s[Dot(s) + 1..], d)
    ensures HasSuffix(s, "." + d)
  {
    var n, t := Dot(s), "." + d;
    var rest := s[n + 1..];
    if d == rest {
      assert s[n..] == t;
    } else {
      assert s[|s| - |t|..] == rest[|rest| - |t|..];
    }
  }

  /** The labels from any position on are a suffix that starts the name or follows a dot. */
  lemma {:induction false} LabelsAreSuffix(s: string, i: nat)
    requires i < |Split(s)|
    ensures DotSuffix(s, From(s, i))
    decreases |s|
  {
    SplitJoin(s);
    if i > 0 {
      var rest := s[Dot(s) + 1..];
      SplitNext(s, i - 1);
      LabelsAreSuffix(rest, i - 1);
      SuffixWithLabel(s, From(s, i));
    }
  }

  /** And every such suffix is the labels from some position on. */
  lemma {:induction false} SuffixIsLabels(s: string, d: string) returns (i: nat)
    requires DotSuffix(s, d)
    ensures i < |Split(s)| && From(s, i) == d
    decreases |s|
  {
    SplitJoin(s);
    i := 0;
    if d != s {
      assert s[|s| - |d| - 1] == ("." + d)[0];
      assert Dot(s) < |s|;
      SuffixSkipsLabel(s, d);
      var j := SuffixIsLabels(s[Dot(s) + 1..], d);
      SplitNext(s, j);
      i := j + 1;
    }
  }

  lemma {:induction false} JoinShrinks(labels: seq<string>)
    requires |labels| > 1
    ensures |Join(labels[1..])| < |Join(labels)|
  {
  }

  lemma {:induction false} LaterIsShorter(s: string, i: nat, j: nat)
    requires i < j < |Split(s)|
    ensures |From(s, j)| < |From(s, i)|
    decreases j - i
  {
    var labels := Split(s);
    JoinShrinks(labels[i..]);
    assert labels[i..][1..] == labels[i + 1..];
    if i + 1 < j {
      LaterIsShorter(s, i + 1, j);
    }
  }

  // ---- The relay ----

  function Exact(h: string): string {
    "domain:" + h
  }

  function Wildcard(d: string): string {
    "domain:wildcard:" + d
  }

  /** A wildcard for `d` is registered that covers `h`. */
  predicate Covers(tunnels: set<string>, h: string, d: string) {
    DotSuffix(h, d) && Wildcard(d) in tunnels
  }

  /** `key` is the wildcard for the longest suffix of `h` that has one. */
  ghost predicate LongestWildcard(tunnels: set<string>, h: string, key: string) {
    exists d :: key == Wildcard(d) && IsLongest(tunnels, h, d)
  }

  ghost predicate IsLongest(tunnels: set<string>, h: string, d: string) {
    Covers(tunnels, h, d) && forall e :: Covers(tunnels, h, e) ==> |e| <= |d|
  }

  lemma {:induction false} FirstIsLongest(tunnels: set<string>, h: string, i: nat)
    requires i < |Split(h)| && Wildcard(From(h, i)) in tunnels
    requires forall j :: 0 <= j < i ==> Wildcard(From(h, j)) !in tunnels
    ensures IsLongest(tunnels, h, From(h, i))
  {
    LabelsAreSuffix(h, i);
    forall e | Covers(tunnels, h, e)
      ensures |e| <= |From(h, i)|
    {
      var j := SuffixIsLabels(h, e);
      if i < j {
        LaterIsShorter(h, i, j);
      }
    }
  }

  lemma {:induction false} NoneCovers(tunnels: set<string>, h: string)
    requires forall j :: 0 <= j < |Split(h)| ==> Wildcard(From(h, j)) !in tunnels
    ensures forall e :: !Covers(tunnels, h, e)
  {
    forall e
      ensures !Covers(tunnels, h, e)
    {
      if Covers(tunnels, h, e) {
        var j := SuffixIsLabels(h, e);
        assert false;
      }
    }
  }

  /** relayTunnelKey: the exact name, or else the longest wildcard suffix. */
  method RelayTunnelKey(tunnels: set<string>, hostname: string) returns (found: bool, key: string)
    ensures var h := Lower(hostname);
            if Exact(h) in tunnels then found && key == Exact(h)
            else (found <==> exists d :: Covers(tunnels, h, d)) && (found ==> LongestWildcard(tunnels, h, key))
    ensures found ==> key in tunnels
  {
    var h := Lower(hostname);
    var exact := "domain:" + h;
    if exact in tunnels {
      return true, exact;
    }
    SplitJoin(h);
    var wildcard := "domain:wildcard:" + h;
    if wildcard in tunnels {
      FirstIsLongest(tunnels, h, 0);
      return true, wildcard;
    }
    var labels := Split(h);
    for i := 1 to |labels|
      invariant forall j :: 0 <= j < i ==> Wildcard(From(h, j)) !in tunnels
    {
      key := "domain:wildcard:" + Join(labels[i..]);
      assert key == Wildcard(From(h, i));
      if key in tunnels {
        FirstIsLongest(tunnels, h, i);
        return true, key;
      }
    }
    NoneCovers(tunnels, h);
    return false, "";
  }

  /** What relayTunnelKey may answer. */
  ghost predicate Routes(tunnels: set<string>, h: string, key: string) {
    key in tunnels && (if Exact(h) in tunnels then key == Exact(h) else LongestWildcard(tunnels, h, key))
  }

  /** What the relay sends to the agent. */
  function Destination(h: string, port: string): string {
    "domain:" + h + ":" + port
  }

  // ---- The agent ----

  /** The position of the first colon, or the length. */
  function Colon(s: string): (n: nat)
    ensures n <= |s|
    ensures n < |s| ==> s[n] == ':'
    ensures forall i :: 0 <= i < n ==> s[i] != ':'
  {
    if |s| == 0 || s[0] == ':' then 0 else 1 + Colon(s[1..])
  }

  function HostClaim(host: string): Claim {
    Claim(RelayClaim, "", host, 0, "", "")
  }

  /** relayDestinationAllowed. */
  predicate DestinationAllowed(destination: string, claim: Claim, port: string, isIP: string -> bool) {
    |destination| >= 7 && destination[..7] == "domain:" && RestAllowed(destination[7..], claim, port, isIP)
  }

  predicate RestAllowed(rest: string, claim: Claim, port: string, isIP: string -> bool) {
    var n := Colon(rest);
    && n < |rest| && rest[n + 1..] == port && ':' !in rest[..n] && rest[..n] == Lower(rest[..n])
    && ValidateClaim(HostClaim(rest[..n]), isIP)
    && (if claim.scope == "wildcard"
        then rest[..n] == claim.domain || HasSuffix(rest[..n], "." + claim.domain)
        else rest[..n] == claim.domain)
  }

  datatype Upstream = Refused | To(address: string)

  /** selectTCPUpstream; the claim may be absent. */
  function SelectUpstream(
    destination: string, hasClaim: bool, claim: Claim, upstream: string, challenge: string,
    isIP: string -> bool): Upstream {
    if !hasClaim || !claim.kind.RelayClaim? then To(upstream)
    else if DestinationAllowed(destination, claim, "443", isIP) then To(upstream)
    else if DestinationAllowed(destination, claim, "80", isIP) then (if challenge == "" then Refused else To(challenge))
    else Refused
  }

  // ---- They agree ----

  /** What a claim covers, said once for both sides. */
  predicate InScope(h: string, claim: Claim) {
    if claim.scope == "wildcard" then DotSuffix(h, claim.domain) else h == claim.domain
  }

  lemma {:induction false} ColonAfter(h: string, port: string)
    requires ':' !in h
    ensures Colon(h + ":" + port) == |h|
  {
    var s := h + ":" + port;
    assert s[|h|] == ':';
    assert forall i :: 0 <= i < |h| ==> s[i] == h[i];
  }

  /** The agent takes a destination the relay made for `h` exactly when its claim covers `h`. */
  lemma {:induction false} AgentAccepts(h: string, claim: Claim, port: string, other: string, isIP: string -> bool)
    requires ValidHostname(h, isIP)
    ensures DestinationAllowed(Destination(h, port), claim, other, isIP) <==> port == other && InScope(h, claim)
  {
    HostnameHasNoColon(h, isIP);
    ColonAfter(h, port);
    var d, rest := Destination(h, port), h + ":" + port;
    assert d[..7] == "domain:" && d[7..] == rest;
    assert rest[..|h|] == h && rest[|h| + 1..] == port;
  }

  /** Every tunnel was registered for a valid claim. */
  ghost predicate FromClaims(tunnels: set<string>, claims: set<Claim>, isIP: string -> bool) {
    && (forall c :: c in claims ==> ValidateClaim(c, isIP) && ClaimKey(c) in tunnels)
    && (forall k :: k in tunnels ==> exists c :: c in claims && ClaimKey(c) == k)
  }

  lemma {:induction false} KeyOfClaim(claim: Claim, isIP: string -> bool)
    requires ValidateClaim(claim, isIP) && claim.kind.RelayClaim?
    ensures ClaimKey(claim) == if claim.scope == "wildcard" then Wildcard(claim.domain) else Exact(claim.domain)
  {
  }

  lemma {:induction false} DomainKeyIsRelay(claim: Claim, d: string, isIP: string -> bool)
    requires ValidateClaim(claim, isIP) && (ClaimKey(claim) == Exact(d) || ClaimKey(claim) == Wildcard(d))
    ensures claim.kind.RelayClaim?
  {
    assert ClaimKey(claim)[0] == 'd';
  }

  lemma {:induction false} KeysDiffer(a: string, b: string)
    requires Wildcard(a) == Wildcard(b) || Exact(a) == Exact(b)
    ensures a == b
  {
    if Wildcard(a) == Wildcard(b) {
      Cancel("domain:wildcard:", a, b);
    } else {
      Cancel("domain:", a, b);
    }
  }

  /** The relay never forwards what the agent would refuse: a tunnel that a hostname is routed to
      was registered for a relay claim that covers it. */
  lemma {:induction false} ForwardedIsAccepted(
    tunnels: set<string>, h: string, key: string, claim: Claim, port: string, isIP: string -> bool)
    requires ValidHostname(h, isIP) && Routes(tunnels, h, key)
    requires ValidateClaim(claim, isIP) && ClaimKey(claim) == key
    ensures claim.kind.RelayClaim? && DestinationAllowed(Destination(h, port), claim, port, isIP)
  {
    AgentAccepts(h, claim, port, port, isIP);
    if Exact(h) in tunnels {
      DomainKeyIsRelay(claim, h, isIP);
      KeyOfClaim(claim, isIP);
      if claim.scope == "wildcard" {
        WildcardIsNoHost(claim.domain, h, isIP);
        assert false;
      }
      KeysDiffer(claim.domain, h);
    } else {
      var d :| key == Wildcard(d) && IsLongest(tunnels, h, d);
      DomainKeyIsRelay(claim, d, isIP);
      KeyOfClaim(claim, isIP);
      if claim.scope != "wildcard" {
        WildcardIsNoHost(d, claim.domain, isIP);
        assert false;
      }
      KeysDiffer(claim.domain, d);
    }
  }

  /** A valid hostname is routed somewhere exactly when some registered claim's agent would accept it. */
  lemma {:induction false} RoutedIffSomeAgentAccepts(
    tunnels: set<string>, claims: set<Claim>, h: string, port: string, isIP: string -> bool)
    requires ValidHostname(h, isIP) && FromClaims(tunnels, claims, isIP)
    ensures (Exact(h) in tunnels || exists d :: Covers(tunnels, h, d)) <==>
            exists c :: c in claims && c.kind.RelayClaim? && DestinationAllowed(Destination(h, port), c, port, isIP)
  {
    if c :| c in claims && c.kind.RelayClaim? && DestinationAllowed(Destination(h, port), c, port, isIP) {
      AgentAccepts(h, c, port, port, isIP);
      KeyOfClaim(c, isIP);
      if c.scope == "wildcard" {
        assert Covers(tunnels, h, c.domain);
      }
    }
    if Exact(h) in tunnels {
      SomeAgentAccepts(tunnels, claims, h, Exact(h), port, isIP);
    } else if d :| Covers(tunnels, h, d) {
      var k := SuffixIsLabels(h, d);
      var best := Longest(tunnels, h, k);
      SomeAgentAccepts(tunnels, claims, h, Wildcard(best), port, isIP);
    }
  }

  lemma {:induction false} SomeAgentAccepts(
    tunnels: set<string>, claims: set<Claim>, h: string, key: string, port: string, isIP: string -> bool)
    requires ValidHostname(h, isIP) && FromClaims(tunnels, claims, isIP) && Routes(tunnels, h, key)
    ensures exists c :: c in claims && c.kind.RelayClaim? && DestinationAllowed(Destination(h, port), c, port, isIP)
  {
    var c :| c in claims && ClaimKey(c) == key;
    ForwardedIsAccepted(tunnels, h, key, c, port, isIP);
  }

  lemma {:induction false} Longest(tunnels: set<string>, h: string, k: nat) returns (d: string)
    requires k < |Split(h)| && Wildcard(From(h, k)) in tunnels
    ensures IsLongest(tunnels, h, d)
    decreases k
  {
    if j :| 0 <= j < k && Wildcard(From(h, j)) in tunnels {
      d := Longest(tunnels, h, j);
    } else {
      FirstIsLongest(tunnels, h, k);
      d := From(h, k);
    }
  }

  /** What the relay forwards on 443 goes to the upstream, and what it forwards on 80 to the
      challenge upstream if there is one. */
  lemma {:induction false} PortSelectsUpstream(
    tunnels: set<string>, h: string, claim: Claim, upstream: string, challenge: string, isIP: string -> bool)
    requires ValidHostname(h, isIP) && Routes(tunnels, h, ClaimKey(claim)) && ValidateClaim(claim, isIP)
    ensures SelectUpstream(Destination(h, "443"), true, claim, upstream, challenge, isIP) == To(upstream)
    ensures SelectUpstream(Destination(h, "80"), true, claim, upstream, challenge, isIP)
            == if challenge == "" then Refused else To(challenge)
  {
    ForwardedIsAccepted(tunnels, h, ClaimKey(claim), claim, "443", isIP);
    ForwardedIsAccepted(tunnels, h, ClaimKey(claim), claim, "80", isIP);
    AgentAccepts(h, claim, "80", "443", isIP);
    assert "80" != "443";
  }
}
