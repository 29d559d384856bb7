/** Joining a server's metadata snapshot with the operator's policy (joinResourceServer in
    resource-registry.ts): no flag a server sets can be lifted by policy. */
module RegistryJoin {
  import opened Basics
  import opened ResourceRegistry
  import opened Metadata

  datatype ScopePolicy = ScopePolicy(
    scopeName: string, shortLived: bool, freshSignIn: bool, requireGroups: seq<string>, descriptionOverride: Option<string>)

  /** A null metadata column is None; a snapshot with an empty scope name is unreadable. */
  datatype RegistryRow = RegistryRow(
    identifier: string, displayName: string, enabled: bool, releaseClaims: seq<string>,
    metadata: Option<ResourceMetadata>, scopePolicies: seq<ScopePolicy>)

  /** The look-up in a map built from the policies: of several matches, the last. */
  function PolicyFor(policies: seq<ScopePolicy>, name: string): (r: Option<ScopePolicy>)
    ensures r.Some? ==> r.value in policies && r.value.scopeName == name
  {
    if policies == [] then None
    else if policies[|policies| - 1].scopeName == name then Some(policies[|policies| - 1])
    else PolicyFor(policies[..|policies| - 1], name)
  }

  function JoinScope(declared: DeclaredScope, policy: Option<ScopePolicy>): Scope {
    var freshSignIn := declared.freshSignIn || (policy.Some? && policy.value.freshSignIn);
    Scope(
      declared.name,
      if policy.Some? && policy.value.descriptionOverride.Some? then policy.value.descriptionOverride.value else declared.description,
      declared.shortLived || declared.stepUp || freshSignIn || (policy.Some? && policy.value.shortLived),
      freshSignIn,
      if policy.Some? && policy.value.requireGroups != [] then Some(policy.value.requireGroups) else None)
  }

  /** Of scopes declared under one name, the first. */
  function JoinScopes(declared: seq<DeclaredScope>, policies: seq<ScopePolicy>): seq<Scope> {
    if declared == [] then [] else
      var front, last := declared[..|declared| - 1], declared[|declared| - 1];
      JoinScopes(front, policies) + (if last.name in Names(front) then [] else [JoinScope(last, PolicyFor(policies, last.name))])
  }

  predicate Readable(m: ResourceMetadata) {
    forall s :: s in m.scopes ==> s.name != ""
  }

  function Join(row: RegistryRow): Option<Server> {
    if !row.enabled || row.metadata.None? || !Readable(row.metadata.value) then None
    else Some(Server(row.identifier, row.displayName, JoinScopes(row.metadata.value.scopes, row.scopePolicies), row.releaseClaims))
  }

  method JoinResourceServer(row: RegistryRow) returns (server: Option<Server>)
    ensures server == Join(row)
  {
    if !row.enabled || row.metadata.None? { return None; }
    var snapshot := row.metadata.value.scopes;
    if exists s :: s in snapshot && s.name == "" { return None; }
    var seen: set<string> := {};
    var scopes := [];
    for i := 0 to |snapshot|
      invariant seen == Names(snapshot[..i])
      invariant scopes == JoinScopes(snapshot[..i], row.scopePolicies)
    {
      var declared := snapshot[i];
      assert snapshot[..i + 1] == snapshot[..i] + [declared];
      if declared.name in seen { continue; }
      seen := seen + {declared.name};
      scopes := scopes + [JoinScope(declared, PolicyFor(row.scopePolicies, declared.name))];
    }
    assert snapshot[..|snapshot|] == snapshot;
    server := Some(Server(row.identifier, row.displayName, scopes, row.releaseClaims));
  }

  // ---------------------------------------------------------------- what a lookup finds

  lemma {:induction false} FindAppend(scopes: seq<Scope>, s: Scope, name: string)
    ensures FindScope(scopes + [s], name) ==
      if FindScope(scopes, name).Some? then FindScope(scopes, name) else if s.name == name then Some(s) else None
  {
    if scopes != [] {
      assert (scopes + [s])[1..] == scopes[1..] + [s];
      FindAppend(scopes[1..], s, name);
    }
  }

  lemma {:induction false} JoinedNames(declared: seq<DeclaredScope>, policies: seq<ScopePolicy>)
    ensures ScopeNames(JoinScopes(declared, policies)) == Names(declared)
  {
    if declared != [] {
      var front, last := declared[..|declared| - 1], declared[|declared| - 1];
      assert declared == front + [last];
      JoinedNames(front, policies);
      assert Names(declared) == Names(front) + {last.name};
    }
  }

  /** A lookup finds exactly the declared scopes, each under its own policy. */
  lemma {:induction false} JoinedLookup(declared: seq<DeclaredScope>, policies: seq<ScopePolicy>, name: string)
    requires UniqueNames(declared)
    ensures FindScope(JoinScopes(declared, policies), name) ==
      if Lookup(declared, name).None? then None else Some(JoinScope(Lookup(declared, name).value, PolicyFor(policies, name)))
  {
    if declared != [] {
      var front, last := declared[..|declared| - 1], declared[|declared| - 1];
      assert declared == front + [last];
      JoinedLookup(front, policies, name);
      LookupAppend(front, last, name);
      JoinOneMore(front, last, policies, name);
      hide JoinScopes, FindScope, JoinScope, PolicyFor;
      forall i | 0 <= i < |front| ensures front[i].name != last.name {
        assert declared[i].name != declared[|front|].name;
      }
    }
  }

  // ---------------------------------------------------------------- what the policy decides

  lemma {:induction false} LastPolicy(policies: seq<ScopePolicy>, j: nat)
    requires j < |policies| && forall k :: j < k < |policies| ==> policies[k].scopeName != policies[j].scopeName
    ensures PolicyFor(policies, policies[j].scopeName) == Some(policies[j])
  {
    if j < |policies| - 1 {
      assert policies[|policies| - 1].scopeName != policies[j].scopeName;
      LastPolicy(policies[..|policies| - 1], j);
    }
  }

  /** The declaration at `i` is the first of its name. */
  predicate FirstDeclared(declared: seq<DeclaredScope>, i: nat) {
    i < |declared| && forall k :: 0 <= k < i ==> declared[k].name != declared[i].name
  }

  /** One more declaration adds its scope, unless its name was declared before. */
  lemma {:induction false} JoinOneMore(front: seq<DeclaredScope>, last: DeclaredScope, policies: seq<ScopePolicy>, name: string)
    ensures FindScope(JoinScopes(front + [last], policies), name) ==
      if name in Names(front) then FindScope(JoinScopes(front, policies), name)
      else if last.name == name then Some(JoinScope(last, PolicyFor(policies, name))) else None
  {
    hide JoinScope, PolicyFor, FindScope;
    JoinScopesAppend(front, last, policies);
    hide JoinScopes;
    JoinedNames(front, policies);
    NameIsKept(last, PolicyFor(policies, last.name));
    var joined := JoinScopes(front, policies);
    assert joined + [] == joined;
    FindAppend(joined, JoinScope(last, PolicyFor(policies, last.name)), name);
  }

  lemma {:induction false} JoinScopesAppend(front: seq<DeclaredScope>, last: DeclaredScope, policies: seq<ScopePolicy>)
    ensures JoinScopes(front + [last], policies) ==
      JoinScopes(front, policies) + (if last.name in Names(front) then [] else [JoinScope(last, PolicyFor(policies, last.name))])
  {
    hide JoinScope, PolicyFor;
    assert (front + [last])[..|front + [last]| - 1] == front;
  }

  lemma {:induction false} FirstIsJoined(declared: seq<DeclaredScope>, policies: seq<ScopePolicy>, i: nat)
    requires FirstDeclared(declared, i)
    ensures FindScope(JoinScopes(declared, policies), declared[i].name) == Some(JoinScope(declared[i], PolicyFor(policies, declared[i].name)))
  {
    hide JoinScope, PolicyFor, JoinScopes, FindScope;
    var front, last := declared[..|declared| - 1], declared[|declared| - 1];
    assert declared == front + [last];
    JoinOneMore(front, last, policies, declared[i].name);
    if i < |front| {
      assert FirstDeclared(front, i) by { forall k | 0 <= k < i ensures front[k].name != front[i].name { assert front[k] == declared[k]; } }
      FirstIsJoined(front, policies, i);
      assert declared[i] in front;
    } else {
      forall d | d in front ensures d.name != last.name { var k :| 0 <= k < i && d == declared[k]; }
    }
  }

  lemma NameIsKept(declared: DeclaredScope, policy: Option<ScopePolicy>)
    ensures JoinScope(declared, policy).name == declared.name
  {
  }

  /** The registry entry a row comes to: none exactly where the row is disabled or its snapshot
      missing or unreadable; else the row's own data, and each declared name once. */
  lemma EntryOfRow(row: RegistryRow)
    ensures Join(row).Some? <==> row.enabled && row.metadata.Some? && forall s :: s in row.metadata.value.scopes ==> s.name != ""
    ensures Join(row).Some? ==>
      && var e := Join(row).value;
      && e.identifier == row.identifier && e.name == row.displayName && e.releaseClaims == row.releaseClaims
      && (forall name :: name in ScopeNames(e.scopes) <==> exists d :: d in row.metadata.value.scopes && d.name == name)
      && (forall i, j :: 0 <= i < j < |e.scopes| ==> e.scopes[i].name != e.scopes[j].name)
  {
    if Join(row).Some? {
      JoinedNames(row.metadata.value.scopes, row.scopePolicies);
      JoinedUnique(row.metadata.value.scopes, row.scopePolicies);
    }
  }

  /** The policy `p` of a declared scope `d` takes effect: its groups gate the scope, its flags
      join the declared ones, its text replaces the declared one. */
  predicate GovernedBy(s: Scope, d: DeclaredScope, p: ScopePolicy) {
    && s.name == d.name
    && (s.requireGroups.Some? <==> |p.requireGroups| > 0) && (s.requireGroups.Some? ==> s.requireGroups.value == p.requireGroups)
    && (s.freshSignIn <==> d.freshSignIn || p.freshSignIn)
    && (s.shortLived <==> d.shortLived || d.stepUp || d.freshSignIn || p.freshSignIn || p.shortLived)
    && s.description == (if p.descriptionOverride.Some? then p.descriptionOverride.value else d.description)
  }

  /** A scope without a policy is registered as the server declares it, open to every group. */
  predicate AsDeclared(s: Scope, d: DeclaredScope) {
    && s.name == d.name && s.description == d.description && s.requireGroups.None?
    && (s.freshSignIn <==> d.freshSignIn) && (s.shortLived <==> d.shortLived || d.stepUp || d.freshSignIn)
  }

  /** Every declared scope is found in the registry under the policy of its name, if there is
      one: of several declarations the first, of several policies the last. */
  lemma PolicyTakesEffect(row: RegistryRow, i: nat)
    requires Join(row).Some? && FirstDeclared(row.metadata.value.scopes, i)
    ensures var d := row.metadata.value.scopes[i];
      var found := FindScope(Join(row).value.scopes, d.name);
      && found.Some?
      && (forall j :: 0 <= j < |row.scopePolicies| && row.scopePolicies[j].scopeName == d.name
            && (forall k :: j < k < |row.scopePolicies| ==> row.scopePolicies[k].scopeName != d.name)
            ==> GovernedBy(found.value, d, row.scopePolicies[j]))
      && ((forall p :: p in row.scopePolicies ==> p.scopeName != d.name) ==> AsDeclared(found.value, d))
  {
    var d := row.metadata.value.scopes[i];
    FirstIsJoined(row.metadata.value.scopes, row.scopePolicies, i);
    forall j | 0 <= j < |row.scopePolicies| && row.scopePolicies[j].scopeName == d.name
        && (forall k :: j < k < |row.scopePolicies| ==> row.scopePolicies[k].scopeName != d.name)
      ensures PolicyFor(row.scopePolicies, d.name) == Some(row.scopePolicies[j])
    {
      LastPolicy(row.scopePolicies, j);
    }
  }

  // ---------------------------------------------------------------- tightening

  /** No gate of `b` is relaxed in `a`. */
  predicate ScopeTighter(a: Scope, b: Scope) {
    && a.name == b.name && a.description == b.description && a.requireGroups == b.requireGroups
    && (b.shortLived ==> a.shortLived) && (b.freshSignIn ==> a.freshSignIn)
  }

  ghost predicate Tighter(a: Server, b: Server) {
    && a.releaseClaims == b.releaseClaims
    && forall name :: FindScope(a.scopes, name).Some? ==>
         FindScope(b.scopes, name).Some? && ScopeTighter(FindScope(a.scopes, name).value, FindScope(b.scopes, name).value)
  }

  /** Under the same policy, a document that is no wider joins to a tighter registry entry. */
  lemma NarrowerJoinsTighter(row: RegistryRow, a: ResourceMetadata, b: ResourceMetadata)
    requires UniqueNames(a.scopes) && UniqueNames(b.scopes) && NoWider(a.scopes, b.scopes)
    ensures Join(row.(metadata := Some(a))).Some? && Join(row.(metadata := Some(b))).Some? ==>
      Tighter(Join(row.(metadata := Some(a))).value, Join(row.(metadata := Some(b))).value)
    ensures Join(row.(metadata := Some(b))).Some? ==> Join(row.(metadata := Some(a))).Some?
  {
    forall s | s in a.scopes ensures s.name in Names(b.scopes) {
      assert Covered(s, b.scopes);
    }
    forall name ensures Lookup(a.scopes, name).Some? ==> Lookup(b.scopes, name).Some? && Within(Lookup(a.scopes, name).value, Lookup(b.scopes, name).value) {
      JoinedLookup(a.scopes, row.scopePolicies, name);
      JoinedLookup(b.scopes, row.scopePolicies, name);
      if Lookup(a.scopes, name).Some? {
        assert Covered(Lookup(a.scopes, name).value, b.scopes);
        var t :| t in b.scopes && Within(Lookup(a.scopes, name).value, t);
        LookupUnique(b.scopes, t);
      }
    }
    forall name ensures FindScope(JoinScopes(a.scopes, row.scopePolicies), name).Some? ==>
        FindScope(JoinScopes(b.scopes, row.scopePolicies), name).Some?
        && ScopeTighter(FindScope(JoinScopes(a.scopes, row.scopePolicies), name).value, FindScope(JoinScopes(b.scopes, row.scopePolicies), name).value)
    {
      JoinedLookup(a.scopes, row.scopePolicies, name);
      JoinedLookup(b.scopes, row.scopePolicies, name);
    }
  }

  /** Policy never relaxes what the server declared: a joined scope is one the server declares,
      and it is short-lived or asks for a fresh sign-in wherever the server says so. */
  lemma PolicyOnlyTightens(row: RegistryRow, name: string)
    requires Join(row).Some? && UniqueNames(row.metadata.value.scopes)
    ensures var joined := FindScope(Join(row).value.scopes, name);
      var declared := Lookup(row.metadata.value.scopes, name);
      && (joined.Some? <==> declared.Some?)
      && (joined.Some? && declared.value.freshSignIn ==> joined.value.freshSignIn)
      && (joined.Some? && (declared.value.shortLived || declared.value.stepUp || joined.value.freshSignIn) ==> joined.value.shortLived)
  {
    JoinedLookup(row.metadata.value.scopes, row.scopePolicies, name);
  }

  lemma {:induction false} ShortLivedFound(scopes: seq<Scope>, name: string)
    requires forall i, j :: 0 <= i < j < |scopes| ==> scopes[i].name != scopes[j].name
    ensures name in ShortLivedNames(scopes) <==> FindScope(scopes, name).Some? && FindScope(scopes, name).value.shortLived
    ensures forall s :: s in scopes ==> FindScope(scopes, s.name) == Some(s)
  {
    if scopes != [] {
      var rest := scopes[1..];
      assert scopes == [scopes[0]] + rest;
      forall i, j | 0 <= i < j < |rest| ensures rest[i].name != rest[j].name {
        assert scopes[i + 1].name != scopes[j + 1].name;
      }
      ShortLivedFound(rest, name);
      forall s | s in rest ensures s.name != scopes[0].name {
        var k :| 0 <= k < |rest| && rest[k] == s;
        assert scopes[0].name != scopes[k + 1].name;
      }
      forall s | s in scopes ensures FindScope(scopes, s.name) == Some(s) {
        if s != scopes[0] { assert s in rest; ShortLivedFound(rest, s.name); }
      }
    }
  }

  lemma {:induction false} JoinedUnique(declared: seq<DeclaredScope>, policies: seq<ScopePolicy>)
    ensures forall i, j :: 0 <= i < j < |JoinScopes(declared, policies)| ==> JoinScopes(declared, policies)[i].name != JoinScopes(declared, policies)[j].name
  {
    if declared != [] {
      var front, last := declared[..|declared| - 1], declared[|declared| - 1];
      JoinedUnique(front, policies);
      JoinedNames(front, policies);
      var joined := JoinScopes(front, policies);
      forall i | 0 <= i < |joined| ensures last.name !in Names(front) ==> joined[i].name != last.name {
        assert joined[i].name in ScopeNames(joined);
      }
    }
  }

  /** What a tighter entry lets a refresh keep and an access token carry is a subset.
      offline_access is reserved, so no entry declares it. */
  lemma TighterIssuesLess(reg: Registry, resource: string, a: Server, b: Server, scopes: seq<string>, groups: set<string>, s: string)
    requires Tighter(a, b)
    requires forall i, j :: 0 <= i < j < |a.scopes| ==> a.scopes[i].name != a.scopes[j].name
    requires forall i, j :: 0 <= i < j < |b.scopes| ==> b.scopes[i].name != b.scopes[j].name
    requires OFFLINE_ACCESS !in ScopeNames(b.scopes)
    requires var r := reg[resource := a]; s in PermittedScopes(r, resource, RefreshableScopes(r, resource, scopes), groups)
    ensures var r := reg[resource := b]; s in PermittedScopes(r, resource, RefreshableScopes(r, resource, scopes), groups)
  {
    ShortLivedFound(a.scopes, s);
    ShortLivedFound(b.scopes, s);
    GateFound(a, groups, s);
    GateFound(b, groups, s);
    if FindScope(a.scopes, s).Some? {
      assert ScopeTighter(FindScope(a.scopes, s).value, FindScope(b.scopes, s).value);
    }
  }

  lemma GateFound(server: Server, groups: set<string>, name: string)
    requires forall i, j :: 0 <= i < j < |server.scopes| ==> server.scopes[i].name != server.scopes[j].name
    ensures name in UnmetGates(server, groups) <==> Forbidden(server, name, groups)
  {
    ShortLivedFound(server.scopes, name);
  }
}
