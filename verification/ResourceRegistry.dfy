/** The in-memory registry as lookups see it (resource-registry.ts), and the scope and
    claim filters that read it (refresh-token.ts, access-token.ts, released-claims.ts). */
module ResourceRegistry {
  import opened Basics

  datatype Scope = Scope(
    name: string,
    description: string,
    shortLived: bool,
    freshSignIn: bool,
    requireGroups: Option<seq<string>>)

  datatype Server = Server(identifier: string, name: string, scopes: seq<Scope>, releaseClaims: seq<string>)

  type Registry = map<string, Server>

  const OFFLINE_ACCESS := "offline_access"
  const DEFAULT_TTL_SECONDS := 15 * 60
  const SHORT_LIVED_TTL_SECONDS := 5 * 60

  function ScopeNames(scopes: seq<Scope>): set<string> {
    set s | s in scopes :: s.name
  }

  function ShortLivedNames(scopes: seq<Scope>): set<string> {
    set s | s in scopes && s.shortLived :: s.name
  }

  /** The first scope of that name. */
  function FindScope(scopes: seq<Scope>, name: string): (r: Option<Scope>)
    ensures r.Some? ==> r.value in scopes && r.value.name == name
    ensures r.None? <==> name !in ScopeNames(scopes)
  {
    if scopes == [] then None
    else if scopes[0].name == name then Some(scopes[0])
    else FindScope(scopes[1..], name)
  }

  /** The scope at `i` is the first of that name, which is the one that look-ups find. */
  predicate FirstOfName(scopes: seq<Scope>, i: nat, name: string) {
    i < |scopes| && scopes[i].name == name && forall j :: 0 <= j < i ==> scopes[j].name != name
  }

  lemma {:induction false} LookupFindsFirst(scopes: seq<Scope>, name: string)
    ensures FindScope(scopes, name).None? ==> forall i: nat :: !FirstOfName(scopes, i, name)
    ensures FindScope(scopes, name).Some? ==> exists i: nat :: FirstOfName(scopes, i, name) && scopes[i] == FindScope(scopes, name).value
  {
    if scopes != [] {
      var rest := scopes[1..];
      LookupFindsFirst(rest, name);
      if scopes[0].name == name {
        assert FirstOfName(scopes, 0, name);
      } else if FindScope(rest, name).Some? {
        var i: nat :| FirstOfName(rest, i, name) && rest[i] == FindScope(rest, name).value;
        assert forall j :: 1 <= j <= i ==> scopes[j] == rest[j - 1];
        assert FirstOfName(scopes, i + 1, name);
      }
    }
  }

  lemma OneFirst(scopes: seq<Scope>, i: nat, j: nat, name: string)
    requires FirstOfName(scopes, i, name) && FirstOfName(scopes, j, name)
    ensures i == j
  {
  }

  predicate IsShortLivedScope(reg: Registry, resource: string, scope: string) {
    resource in reg && ShortLivedIn(reg[resource], scope)
  }

  predicate RequestsFreshSignIn(server: Server, scopes: seq<string>) {
    exists name, s :: name in scopes && s in server.scopes && s.name == name && s.freshSignIn
  }

  /** Membership in one listed group is enough, and without listed groups everybody passes. */
  predicate GroupsSatisfy(groups: set<string>, required: Option<seq<string>>) {
    required.None? || required.value == [] || exists g :: g in required.value && g in groups
  }

  /** The first requested scope whose group gate the user does not pass. */
  function FirstForbidden(scopes: seq<string>, server: Server, groups: set<string>): (r: Option<string>)
    ensures r.Some? ==> r.value in scopes && Forbidden(server, r.value, groups)
    ensures r.None? <==> forall s :: s in scopes ==> !Forbidden(server, s, groups)
  {
    if scopes == [] then None
    else if Forbidden(server, scopes[0], groups) then Some(scopes[0])
    else FirstForbidden(scopes[1..], server, groups)
  }

  predicate Forbidden(server: Server, name: string, groups: set<string>) {
    var found := FindScope(server.scopes, name);
    found.Some? && !GroupsSatisfy(groups, found.value.requireGroups)
  }

  function AccessTokenScopes(scopes: seq<string>): seq<string> {
    Drop(scopes, {OFFLINE_ACCESS})
  }

  /** The scopes a refresh token keeps: declared ones that are not short-lived, and
      `offline_access`, which belongs to the proxy. */
  function RefreshableScopes(reg: Registry, resource: string, scopes: seq<string>): (r: seq<string>)
    ensures resource in reg ==> forall s :: s in r <==>
      s in scopes && s !in ShortLivedNames(reg[resource].scopes) && (s == OFFLINE_ACCESS || s in ScopeNames(reg[resource].scopes))
    ensures resource !in reg ==> r == scopes
  {
    if resource !in reg then scopes else
      var server := reg[resource];
      Drop(Keep(scopes, ScopeNames(server.scopes) + {OFFLINE_ACCESS}), ShortLivedNames(server.scopes))
  }

  function UnmetGates(server: Server, groups: set<string>): set<string> {
    set s | s in server.scopes && s.requireGroups.Some? && !GroupsSatisfy(groups, s.requireGroups) :: s.name
  }

  /** Drops the scopes whose group gate the user no longer passes. */
  function PermittedScopes(reg: Registry, resource: string, scopes: seq<string>, groups: set<string>): (r: seq<string>)
    ensures resource in reg ==> forall s :: s in r <==>
      s in scopes && forall d :: d in reg[resource].scopes && d.name == s ==> GroupsSatisfy(groups, d.requireGroups)
    ensures resource !in reg ==> r == scopes
  {
    if resource !in reg then scopes else Drop(scopes, UnmetGates(reg[resource], groups))
  }

  /** The claims to mint, in the order consented to. */
  function ConsentedClaimNames(consented: seq<string>, released: seq<string>): (r: seq<string>)
    ensures forall c :: c in r <==> c in released && c in consented
  {
    Keep(released, set c | c in consented)
  }

  /** What one access token says: its scope claim, its identity claims, its lifetime.
      `server` is the registry entry it was minted under. */
  datatype Minted = Minted(scopes: seq<string>, claims: seq<string>, expiresIn: int, server: Server)

  /** Five minutes exactly when a minted scope is short-lived, else fifteen. */
  ghost predicate Lifetime(m: Minted) {
    m.expiresIn == if exists s :: s in m.scopes && ShortLivedIn(m.server, s) then SHORT_LIVED_TTL_SECONDS else DEFAULT_TTL_SECONDS
  }

  predicate ShortLivedIn(server: Server, scope: string) {
    var found := FindScope(server.scopes, scope);
    found.Some? && found.value.shortLived
  }

  /** mintAccessToken together with grantClaims. `present` are the claims the user's
      stored upstream profile has a usable value for. */
  function Mint(reg: Registry, resource: string, scopes: seq<string>, consented: seq<string>, present: set<string>): (r: Option<Minted>)
    ensures r.None? <==> resource !in reg
    ensures r.Some? ==> r.value.server == reg[resource]
    ensures r.Some? ==> forall s :: s in r.value.scopes <==> s in scopes && s in ScopeNames(reg[resource].scopes)
    ensures r.Some? ==> forall c :: c in r.value.claims <==> c in reg[resource].releaseClaims && c in consented && c in present
    ensures r.Some? ==> Lifetime(r.value)
  {
    if resource !in reg then None else
      var server := reg[resource];
      var declared := Keep(scopes, ScopeNames(server.scopes));
      var shortLived := exists s :: s in declared && ShortLivedIn(server, s);
      Some(Minted(
        declared,
        Keep(ConsentedClaimNames(consented, server.releaseClaims), present),
        if shortLived then SHORT_LIVED_TTL_SECONDS else DEFAULT_TTL_SECONDS,
        server))
  }
}
