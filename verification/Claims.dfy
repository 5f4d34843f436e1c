/** Claims and the keys tunnels are registered under (go/internal/protocol/protocol.go and
    go/cmd/blindport-relay/main.go). Whether a string is an IP address is left to the library. */
module Claims {

  datatype Kind = IpClaim | PortClaim | RelayClaim | OtherKind

  datatype Claim = Claim(kind: Kind, ip: string, domain: string, port: nat, transport: string, scope: string)

  // ---- Hostnames ----

  function LowerChar(c: char): char {
    if 'A' <= c <= 'Z' then c - 'A' + 'a' else c
  }

  /** Lower case as ASCII. */
  function Lower(s: string): (r: string)
    ensures |r| == |s|
  {
    seq(|s|, i requires 0 <= i < |s| => LowerChar(s[i]))
  }

  predicate Alnum(c: char) {
    'a' <= c <= 'z' || '0' <= c <= '9'
  }

  /** The pattern of one label: 1 to 63 letters, digits and inner hyphens. */
  predicate LabelOk(s: string) {
    && 1 <= |s| <= 63 && Alnum(s[0]) && Alnum(s[|s| - 1])
    && forall i :: 0 <= i < |s| ==> Alnum(s[i]) || s[i] == '-'
  }

  /** The position of the first dot, or the length. */
  function Dot(s: string): (n: nat)
    ensures n <= |s|
    ensures n < |s| ==> s[n] == '.'
    ensures forall i :: 0 <= i < n ==> s[i] != '.'
  {
    if |s| == 0 || s[0] == '.' then 0 else 1 + Dot(s[1..])
  }

  /** strings.Split(s, "."). */
  function Split(s: string): (labels: seq<string>)
    ensures |labels| > 0
    decreases |s|
  {
    var n := Dot(s);
    if n == |s| then [s] else [s[..n]] + Split(s[n + 1..])
  }

  /** strings.Join(labels, "."). */
  function Join(labels: seq<string>): string
    requires |labels| > 0
    decreases |labels|
  {
    if |labels| == 1 then labels[0] else labels[0] + "." + Join(labels[1..])
  }

  predicate ValidHostname(s: string, isIP: string -> bool) {
    && s != "" && |s| <= 253 && !isIP(s) && s == Lower(s)
    && forall i :: 0 <= i < |Split(s)| ==> LabelOk(Split(s)[i])
  }

  lemma {:induction false} RestLabels(s: string, rest: string)
    requires Dot(s) < |s| && rest == s[Dot(s) + 1..] && forall i :: 0 <= i < |Split(s)| ==> LabelOk(Split(s)[i])
    ensures forall i :: 0 <= i < |Split(rest)| ==> LabelOk(Split(rest)[i])
  {
    forall i | 0 <= i < |Split(rest)|
      ensures LabelOk(Split(rest)[i])
    {
      assert Split(s)[i + 1] == Split(rest)[i];
    }
  }

  /** The characters of a name whose labels are all in order. */
  lemma {:induction false} HostnameChars(s: string)
    requires forall i :: 0 <= i < |Split(s)| ==> LabelOk(Split(s)[i])
    ensures forall i :: 0 <= i < |s| ==> Alnum(s[i]) || s[i] == '-' || s[i] == '.'
    decreases |s|
  {
    var n := Dot(s);
    if n == |s| {
      assert LabelOk(Split(s)[0]);
    } else {
      var rest := s[n + 1..];
      assert LabelOk(Split(s)[0]);
      RestLabels(s, rest);
      HostnameChars(rest);
      forall i | 0 <= i < |s|
        ensures Alnum(s[i]) || s[i] == '-' || s[i] == '.'
      {
        if i < n {
          assert s[..n][i] == s[i];
        } else if i > n {
          assert rest[i - n - 1] == s[i];
        }
      }
    }
  }

  lemma {:induction false} HostnameHasNoColon(s: string, isIP: string -> bool)
    requires ValidHostname(s, isIP)
    ensures ':' !in s
  {
    HostnameChars(s);
  }

  // ---- Claims ----

  /** ValidateClaim. */
  predicate ValidateClaim(c: Claim, isIP: string -> bool) {
    var transportOk := c.transport == "" || c.transport == "tcp";
    match c.kind
    case IpClaim => isIP(c.ip) && c.domain == "" && c.port == 0 && transportOk && c.scope == ""
    case PortClaim =>
      && isIP(c.ip) && c.domain == "" && c.port != 0
      && (c.transport == "tcp" || c.transport == "udp") && c.scope == ""
    case RelayClaim =>
      && ValidHostname(c.domain, isIP) && c.ip == "" && c.port == 0
      && transportOk && (c.scope == "" || c.scope == "wildcard")
    case OtherKind => false
  }

  /** strconv.Itoa of a port. */
  function Itoa(n: nat): (s: string)
    ensures |s| > 0 && forall i :: 0 <= i < |s| ==> '0' <= s[i] <= '9'
  {
    var digit := '0' + (n % 10) as char;
    if n < 10 then [digit] else Itoa(n / 10) + [digit]
  }

  function Value(s: string): int {
    if |s| == 0 then 0 else 10 * Value(s[..|s| - 1]) + (s[|s| - 1] as int - '0' as int)
  }

  lemma {:induction false} ItoaReadsBack(n: nat)
    ensures Value(Itoa(n)) == n
  {
    var s := Itoa(n);
    if n < 10 {
      assert Value(s[..0]) == 0;
    } else {
      ItoaReadsBack(n / 10);
      assert s[..|s| - 1] == Itoa(n / 10);
    }
  }

  /** net.JoinHostPort. */
  function JoinHostPort(host: string, port: string): string {
    if ':' in host then "[" + host + "]:" + port else host + ":" + port
  }

  function ClaimKey(c: Claim): string {
    match c.kind
    case IpClaim => "ip:" + c.ip
    case PortClaim => "port:" + c.transport + ":" + JoinHostPort(c.ip, Itoa(c.port))
    case RelayClaim =>
      if c.scope == "wildcard" then "domain:wildcard:" + Lower(c.domain) else "domain:" + Lower(c.domain)
    case OtherKind => ""
  }

  // ---- Keys are unique ----

  lemma {:induction false} Cancel(p: string, a: string, b: string)
    requires p + a == p + b
    ensures a == b
  {
    assert a == (p + a)[|p|..];
    assert b == (p + b)[|p|..];
  }

  /** Cutting at the last colon is unambiguous. */
  lemma {:induction false} LastColon(a: string, x: string, b: string, y: string)
    requires a + ":" + x == b + ":" + y && ':' !in x && ':' !in y
    ensures a == b && x == y
  {
    var s := a + ":" + x;
    assert s[|a|] == ':' && s[|b|] == ':';
    assert forall i :: |a| < i < |s| ==> s[i] == x[i - |a| - 1];
    assert forall i :: |b| < i < |s| ==> s[i] == y[i - |b| - 1];
    assert a == s[..|a|] && b == s[..|b|];
    Cancel(a + ":", x, y);
  }

  /** A host as JoinHostPort writes it. */
  function Bracketed(host: string): string {
    if ':' in host then "[" + host + "]" else host
  }

  lemma {:induction false} BracketedUnique(a: string, b: string)
    requires Bracketed(a) == Bracketed(b)
    ensures a == b
  {
    var s := Bracketed(a);
    if s != a && s != b {
      assert a == s[1..|s| - 1] && b == s[1..|s| - 1];
    } else if s != a || s != b {
      assert false;
    }
  }

  lemma {:induction false} HostPortUnique(a: string, p: nat, b: string, q: nat)
    requires JoinHostPort(a, Itoa(p)) == JoinHostPort(b, Itoa(q))
    ensures a == b && p == q
  {
    assert JoinHostPort(a, Itoa(p)) == Bracketed(a) + ":" + Itoa(p);
    assert JoinHostPort(b, Itoa(q)) == Bracketed(b) + ":" + Itoa(q);
    LastColon(Bracketed(a), Itoa(p), Bracketed(b), Itoa(q));
    BracketedUnique(a, b);
    ItoaReadsBack(p);
    ItoaReadsBack(q);
  }

  lemma {:induction false} PortKeyUnique(a: Claim, b: Claim, isIP: string -> bool)
    requires ValidateClaim(a, isIP) && ValidateClaim(b, isIP) && a.kind.PortClaim? && b.kind.PortClaim?
    requires ClaimKey(a) == ClaimKey(b)
    ensures a == b
  {
    var x, y := JoinHostPort(a.ip, Itoa(a.port)), JoinHostPort(b.ip, Itoa(b.port));
    assert ClaimKey(a)[5] == a.transport[0] && ClaimKey(b)[5] == b.transport[0];
    assert a.transport == b.transport;
    Cancel("port:" + a.transport + ":", x, y);
    HostPortUnique(a.ip, a.port, b.ip, b.port);
  }

  lemma {:induction false} RelayKeyUnique(a: Claim, b: Claim, isIP: string -> bool)
    requires ValidateClaim(a, isIP) && ValidateClaim(b, isIP) && a.kind.RelayClaim? && b.kind.RelayClaim?
    requires ClaimKey(a) == ClaimKey(b)
    ensures a.domain == b.domain && a.scope == b.scope
  {
    if a.scope == b.scope {
      Cancel(if a.scope == "wildcard" then "domain:wildcard:" else "domain:", a.domain, b.domain);
    } else if a.scope == "wildcard" {
      WildcardIsNoHost(a.domain, b.domain, isIP);
    } else {
      WildcardIsNoHost(b.domain, a.domain, isIP);
    }
  }

  lemma {:induction false} WildcardIsNoHost(wild: string, exact: string, isIP: string -> bool)
    requires ValidHostname(exact, isIP)
    ensures "domain:wildcard:" + wild != "domain:" + exact
  {
    HostnameHasNoColon(exact, isIP);
    var s, t := "domain:wildcard:" + wild, "domain:" + exact;
    assert s[15] == ':';
    assert |t| > 15 ==> t[15] == exact[8];
  }

  /** The same claim, an absent transport standing for tcp. */
  predicate Same(a: Claim, b: Claim) {
    && a.kind == b.kind && a.ip == b.ip && a.domain == b.domain && a.port == b.port && a.scope == b.scope
    && (a.kind.PortClaim? ==> a.transport == b.transport)
  }

  lemma {:induction false} KindsDiffer(a: Claim, b: Claim)
    requires !a.kind.OtherKind? && !b.kind.OtherKind? && ClaimKey(a) == ClaimKey(b)
    ensures a.kind == b.kind
  {
    assert ClaimKey(a)[0] == match a.kind case IpClaim => 'i' case PortClaim => 'p' case _ => 'd';
    assert ClaimKey(b)[0] == match b.kind case IpClaim => 'i' case PortClaim => 'p' case _ => 'd';
  }

  /** Valid claims have the same key exactly when they are the same claim. */
  lemma {:induction false} ClaimKeyUnique(a: Claim, b: Claim, isIP: string -> bool)
    requires ValidateClaim(a, isIP) && ValidateClaim(b, isIP)
    ensures ClaimKey(a) == ClaimKey(b) <==> Same(a, b)
  {
    if ClaimKey(a) == ClaimKey(b) {
      KindsDiffer(a, b);
      match a.kind
      case IpClaim => Cancel("ip:", a.ip, b.ip);
      case PortClaim => PortKeyUnique(a, b, isIP);
      case RelayClaim => RelayKeyUnique(a, b, isIP);
    }
  }
}
