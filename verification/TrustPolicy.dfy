/** Matching a client's host name against domains (trust-policy.ts): the indexed look-up of a
    host and its parents agrees with scanning every domain for a suffix. */
module TrustPolicy {
  import opened Basics

  /** Where the first "." is, or the length. */
  function FirstDot(s: string): (i: nat)
    ensures i <= |s| && (i < |s| ==> s[i] == '.') && forall j :: 0 <= j < i ==> s[j] != '.'
  {
    if s == [] || s[0] == '.' then 0 else 1 + FirstDot(s[1..])
  }

  /** The labels between the dots. */
  function Split(s: string): (labels: seq<string>)
    ensures labels != []
    decreases |s|
  {
    var i := FirstDot(s);
    if i == |s| then [s] else [s[..i]] + Split(s[i + 1..])
  }

  /** The labels with dots in between. */
  function Join(labels: seq<string>): string {
    if labels == [] then "" else if |labels| == 1 then labels[0] else labels[0] + "." + Join(labels[1..])
  }

  /** The names that begin at each label. */
  function Tails(labels: seq<string>): seq<string> {
    if labels == [] then [] else [Join(labels)] + Tails(labels[1..])
  }

  function HostAndParents(hostname: string): seq<string> {
    Tails(Split(hostname))
  }

  predicate EndsWith(s: string, suffix: string) {
    |suffix| <= |s| && s[|s| - |suffix|..] == suffix
  }

  predicate HostnameMatchesDomain(hostname: string, domain: string) {
    hostname == domain || EndsWith(hostname, "." + domain)
  }

  lemma {:induction false} SplitThenJoin(s: string)
    ensures Join(Split(s)) == s
    decreases |s|
  {
    var i := FirstDot(s);
    if i < |s| {
      SplitThenJoin(s[i + 1..]);
      assert ([s[..i]] + Split(s[i + 1..]))[1..] == Split(s[i + 1..]);
      assert s == s[..i] + "." + s[i + 1..];
    }
  }

  /** The parents of a host are itself and the parents of what follows its first dot. */
  lemma {:induction false} ParentsOf(s: string, domain: string)
    ensures domain in HostAndParents(s) <==> domain == s || (FirstDot(s) < |s| && domain in HostAndParents(s[FirstDot(s) + 1..]))
  {
    SplitThenJoin(s);
    var i := FirstDot(s);
    if i < |s| {
      assert ([s[..i]] + Split(s[i + 1..]))[1..] == Split(s[i + 1..]);
      assert HostAndParents(s) == [s] + HostAndParents(s[i + 1..]);
    } else {
      assert Split(s) == [s] && [s][1..] == [];
      assert Tails([s]) == [Join([s])] + Tails([s][1..]);
    }
  }

  /** A suffix "." + domain starts at some dot of the host. */
  lemma SuffixStart(s: string, domain: string)
    ensures EndsWith(s, "." + domain) <==> |domain| < |s| && s[|s| - |domain| - 1] == '.' && s[|s| - |domain|..] == domain
  {
    if |domain| < |s| {
      var at := |s| - |domain| - 1;
      assert s[at..] == [s[at]] + s[at + 1..];
      assert ("." + domain)[0] == '.' && ("." + domain)[1..] == domain;
    }
  }

  lemma {:induction false} SuffixAfterDot(s: string, domain: string)
    ensures EndsWith(s, "." + domain) <==> FirstDot(s) < |s| && HostnameMatchesDomain(s[FirstDot(s) + 1..], domain)
  {
    SuffixStart(s, domain);
    var i := FirstDot(s);
    if i < |s| {
      var rest := s[i + 1..];
      SuffixStart(rest, domain);
      hide EndsWith, FirstDot;
      if |domain| < |rest| {
        assert rest[|rest| - |domain|..] == s[|s| - |domain|..];
      }
    }
  }

  /** For all strings, a domain is found among a host and its parents exactly when the host is
      that domain or lies below it. */
  lemma {:induction false} LookupAgreesWithScan(hostname: string, domain: string)
    ensures domain in HostAndParents(hostname) <==> HostnameMatchesDomain(hostname, domain)
    decreases |hostname|
  {
    ParentsOf(hostname, domain);
    SuffixAfterDot(hostname, domain);
    if FirstDot(hostname) < |hostname| {
      LookupAgreesWithScan(hostname[FirstDot(hostname) + 1..], domain);
    }
  }

  // ---------------------------------------------------------------- the denylist

  /** A row of the denylist; a client id's host is None when the id is not a URL. */
  datatype Denial = DeniedClient(id: string) | DeniedDomain(domain: string)

  /** matches() in denylist.ts, by which adding an entry selects the grants to revoke. */
  predicate Matches(d: Denial, clientId: string, host: Option<string>) {
    match d
    case DeniedClient(id) => clientId == id
    case DeniedDomain(domain) => host.Some? && HostnameMatchesDomain(host.value, domain)
  }

  /** The query of isDenylisted, by which requests of a client are refused. */
  predicate LookedUp(rows: set<Denial>, clientId: string, host: Option<string>) {
    DeniedClient(clientId) in rows || (host.Some? && exists d :: d in HostAndParents(host.value) && DeniedDomain(d) in rows)
  }

  /** The clients refused are exactly those whose grants adding the entries revoked. */
  lemma RefusedExactlyWhenRevoked(rows: set<Denial>, clientId: string, host: Option<string>)
    ensures LookedUp(rows, clientId, host) <==> exists d :: d in rows && Matches(d, clientId, host)
  {
    if host.Some? && LookedUp(rows, clientId, host) && DeniedClient(clientId) !in rows {
      var d :| d in HostAndParents(host.value) && DeniedDomain(d) in rows;
      LookupAgreesWithScan(host.value, d);
      assert Matches(DeniedDomain(d), clientId, host);
    }
    if DeniedClient(clientId) in rows {
      assert Matches(DeniedClient(clientId), clientId, host);
    }
    if d :| d in rows && Matches(d, clientId, host) {
      if d.DeniedDomain? { LookupAgreesWithScan(host.value, d.domain); }
    }
  }
}
