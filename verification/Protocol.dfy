/** All steps of the server, and runs of them. */
module Protocol {
  import opened Basics
  import opened ResourceRegistry
  import opened Tables
  import opened World
  import TokenEndpoint
  import Consent

  datatype Pruned = Requests | Codes | Devices | Tokens

  datatype Step =
    | Tick(ms: nat)
    | ReloadRegistry(reg: Registry)
    | Authorize(flow: FlowType, client: string, resource: string, scopes: seq<string>, redirectUri: string, challenge: string)
    | SignIn(handle: Hash, user: string)
    | NewDeviceCode(client: string, resource: string, scopes: seq<string>)
    | EnterUserCode(device: Hash)
    | LoadConsent(handle: Hash, user: string, approving: bool)
    | DenyConsent(handle: Hash, user: string)
    | Exchange(request: TokenEndpoint.CodeRequest)
    | Refresh(token: Hash, client: string, resourceParam: Option<string>)
    | Poll(device: Hash, client: string, resourceParam: Option<string>)
    | Revoke(token: Hash, client: string)
    | RevokeGrant(key: GrantKey)
    | DenyClients(clients: set<string>)
    | RemoveServer(resource: string)
    | DeactivateUser(user: string)
    | Prune(table: Pruned, cutoff: Time)
    | Advance(flight: Hash, answer: Answer)

  /** The state after a step; a step that is not possible changes nothing. */
  function Apply(w: World, step: Step): World {
    match step
    case Tick(ms) => w.(now := w.now + ms)
    case ReloadRegistry(reg) => w.(reg := reg)
    case Authorize(flow, client, resource, scopes, uri, challenge) => Consent.Authorize(w, flow, client, resource, scopes, uri, challenge)
    case SignIn(handle, user) => Consent.SignIn(w, handle, user)
    case NewDeviceCode(client, resource, scopes) => Consent.NewDeviceCode(w, client, resource, scopes)
    case EnterUserCode(device) => Consent.EnterUserCode(w, device)
    case LoadConsent(handle, user, approving) => Consent.LoadConsent(w, handle, user, approving)
    case DenyConsent(handle, user) => Consent.DenyConsent(w, handle, user)
    case Exchange(request) => TokenEndpoint.StartExchange(w, request)
    case Refresh(token, client, resource) => TokenEndpoint.StartRefresh(w, token, client, resource)
    case Poll(device, client, resource) => TokenEndpoint.StartPoll(w, device, client, resource)
    case Revoke(token, client) => TokenEndpoint.StartRevoke(w, token, client)
    case RevokeGrant(key) => if key !in w.db.grants then w else w.(db := RevokeOneGrant(w.db, key, w.now))
    case DenyClients(clients) =>
      var keys := set k | k in w.db.grants && w.db.grants[k].revokedAt.None? && k.client in clients;
      w.(db := RevokeGrants(w.db, keys, (set h | h in w.db.tokens && w.db.tokens[h].grant in keys), w.now))
    case RemoveServer(resource) =>
      var keys := set k | k in w.db.grants && k.resource == resource;
      w.(db := RevokeGrants(w.db, keys, (set h | h in w.db.tokens && w.db.tokens[h].resource == resource), w.now))
    case DeactivateUser(user) =>
      var keys := set k | k in w.db.grants && k.user == user;
      w.(db := RevokeGrants(w.db, keys, (set h | h in w.db.tokens && w.db.tokens[h].user == user), w.now))
    case Prune(table, cutoff) => if cutoff <= w.now then w.(db := PruneTable(w.db, table, cutoff)) else w
    case Advance(id, answer) =>
      if id !in w.flights then w
      else if IsConsentFlight(w.flights[id]) then Consent.AdvanceConsent(w, id, answer)
      else TokenEndpoint.AdvanceToken(w, id, answer)
  }

  predicate IsConsentFlight(f: Flight) {
    f.EnteredCode? || f.ConsentLoaded? || f.ConsentGroups? || f.ConsentPin? || f.ConsentApprove? || f.ConsentEnd?
  }

  /** What the next step of a token or revocation request does to the database. */
  function TokenDb(w: World, f: Flight, a: Answer): Db {
    match f
    case DeleteCode(code) => w.db.(codes := w.db.codes - {code})
    case CodeClaim(code, e, _) => if a.ok then ClaimCode(w.db, code, e, w.reg, w.next, w.now).0 else w.db
    case RefreshRotate(h, e, scopes, _) => if a.ok then w.db.(tokens := RotateToken(w.db.tokens, h, e, scopes, w.next)) else w.db
    case DeleteDevice(d) => w.db.(devices := w.db.devices - {d})
    case PollDevice(d, slower) =>
      if d in w.db.devices then w.db.(devices := w.db.devices[d := Polled(w.db.devices[d], slower, w.now)]) else w.db
    case DeviceClaim(d, e, user, _) => if a.ok then ClaimDevice(w.db, d, e, user, w.reg, w.next, w.now).0 else w.db
    case Revoking(g) => w.db.(tokens := RevokeTokens(w.db.tokens, TokensOfGrant(w.db.tokens, g), w.now))
    case _ => w.db
  }

  lemma TokenStepDb(w: World, id: Hash, a: Answer)
    requires id in w.flights && !IsConsentFlight(w.flights[id])
    ensures var w' := TokenEndpoint.AdvanceToken(w, id, a);
      && w'.db == TokenDb(w, w.flights[id], a)
      && (w'.next == w.next || w'.next == w.next + 1)
      && (w'.next == w.next ==> w'.db.tokens.Keys == w.db.tokens.Keys)
  {
    hide Mint, PermittedScopes, RefreshableScopes, NewToken;
  }

  /** One statement of pruneExpiredRows; the cutoff was read when the pruning began. */
  function PruneTable(db: Db, table: Pruned, cutoff: Time): Db {
    match table
    case Requests => db.(requests := map h | h in db.requests && !(db.requests[h].expiresAt < cutoff) :: db.requests[h])
    case Codes => db.(codes := map h | h in db.codes && !(db.codes[h].expiresAt < cutoff) :: db.codes[h])
    case Devices => db.(devices := map h | h in db.devices && !(db.devices[h].expiresAt < cutoff) :: db.devices[h])
    case Tokens => db.(tokens := PruneTokens(db.tokens, cutoff))
  }

  /** The state after the first `n` steps of a run. */
  function At(w: World, run: seq<Step>, n: nat): World
    requires n <= |run|
  {
    if n == 0 then w else Apply(At(w, run, n - 1), run[n - 1])
  }
}
