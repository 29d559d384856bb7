/** POST /oauth/token (token.ts) and POST /oauth/revoke (grants.ts): each handler cut at
    its awaits. A database statement and the code that runs on its answer are one step. */
module TokenEndpoint {
  import opened Basics
  import opened ResourceRegistry
  import opened Tables
  import opened World

  /** The checked form fields. `verifierOk` says the verifier matches the grammar of
      section 4.1 of RFC 7636; `resource` is absent or the value compared. */
  datatype CodeRequest = CodeRequest(code: Hash, client: string, redirectUri: string, verifier: Option<string>, verifierOk: bool, resource: Option<string>)

  /** The presenter's proofs, checked without waiting. */
  predicate Proves(r: CodeRequest, entry: AuthCode) {
    && r.client == entry.client
    && r.redirectUri == entry.redirectUri
    && r.verifierOk
    && r.verifier == Some(entry.challenge)
  }

  function StartExchange(w: World, r: CodeRequest): World {
    if r.code !in w.db.codes then w
    else
      var entry := w.db.codes[r.code];
      var consumed := entry.consumedAt.Some?;
      if entry.expiresAt < w.now then Spawn(w, DeleteCode(r.code))
      else if entry.client != r.client || entry.redirectUri != r.redirectUri then
        if consumed then w else Spawn(w, DeleteCode(r.code))
      else if !Proves(r, entry) then w
      else if !consumed && r.resource.Some? && r.resource.value != entry.resource then w
      else Spawn(w, CodeAuth(r.code, entry))
  }

  function StartRefresh(w: World, token: Hash, client: string, resource: Option<string>): World {
    if token !in w.db.tokens || w.db.tokens[token].client != client then w
    else Spawn(w, RefreshAuth(token, w.db.tokens[token], resource))
  }

  function StartPoll(w: World, device: Hash, client: string, resource: Option<string>): World {
    if device !in w.db.devices then w
    else
      var entry := w.db.devices[device];
      if entry.client != client then w
      else if entry.expiresAt < w.now then Spawn(w, DeleteDevice(device))
      else if resource.Some? && resource.value != entry.resource then w
      else match entry.status
        case Denied => Spawn(w, DeleteDevice(device))
        case Consumed => w
        case Pending =>
          var tooFast := entry.lastPolledAt.Some? && w.now - entry.lastPolledAt.value < entry.pollInterval * 1000;
          Spawn(w, PollDevice(device, if tooFast then Some(entry.pollInterval + 5) else None))
        case Approved =>
          if entry.user.None? then w else Spawn(w, DeviceAuth(device, entry, entry.user.value))
  }

  function StartRevoke(w: World, token: Hash, client: string): World {
    if token !in w.db.tokens || w.db.tokens[token].client != client then w
    else Spawn(w, RevokeAuth(w.db.tokens[token]))
  }

  /** The next step of a token or revocation request. */
  function AdvanceToken(w: World, id: Hash, a: Answer): World
    requires id in w.flights
  {
    match w.flights[id]
    case DeleteCode(code) => Done(w, id).(db := w.db.(codes := w.db.codes - {code}))
    case CodeAuth(code, e) =>
      if !a.ok then Done(w, id)
      else if e.consumedAt.Some? then Go(w, id, Revoking(e.grant))
      else Go(w, id, CodeGrant(code, e))
    case CodeGrant(code, e) =>
      if e.grant !in w.db.grants || w.db.grants[e.grant].revokedAt.Some? then Done(w, id)
      else Go(w, id, CodeUser(code, e, w.db.grants[e.grant].releasedClaims))
    case CodeUser(code, e, consented) =>
      if !a.ok then Done(w, id)
      else (match Mint(w.reg, e.resource, AccessTokenScopes(e.scopes), consented, a.present)
        case None => Done(w, id)
        case Some(m) => Go(w, id, CodeClaim(code, e, m)))
    case CodeClaim(code, e, m) =>
      if !a.ok then Done(w, id)
      else
        var (db, claim) := ClaimCode(w.db, code, e, w.reg, w.next, w.now);
        (match claim
          case Lost => Go(w, id, Revoking(e.grant))
          case GrantRevoked => Done(w, id)
          case Claimed(refresh) =>
            Respond(w.(db := db, next := w.next + 1), id, Issued(FromCode(code), e.user, e.client, e.resource, m, e.scopes, refresh, e.via)))
    case RefreshAuth(h, e, asked) =>
      if !a.ok then Done(w, id)
      else if e.rotatedTo.Some? then Go(w, id, Revoking(e.grant))
      else if e.revokedAt.Some? || e.expiresAt < w.now then Done(w, id)
      else if asked.Some? && asked.value != e.resource then Done(w, id)
      else if e.resource !in w.reg then Done(w, id)
      else Go(w, id, RefreshGrant(h, e))
    case RefreshGrant(h, e) =>
      if e.grant !in w.db.grants || w.db.grants[e.grant].revokedAt.Some? then Done(w, id)
      else Go(w, id, RefreshUser(h, e, w.db.grants[e.grant].releasedClaims))
    case RefreshUser(h, e, consented) =>
      if !a.ok then Done(w, id)
      else Go(w, id, RefreshScopes(h, e, consented, PermittedScopes(w.reg, e.resource, RefreshableScopes(w.reg, e.resource, e.scopes), a.groups)))
    case RefreshScopes(h, e, consented, scopes) =>
      (match Mint(w.reg, e.resource, AccessTokenScopes(scopes), consented, a.present)
        case None => Done(w, id)
        case Some(m) => Go(w, id, RefreshRotate(h, e, scopes, m)))
    case RefreshRotate(h, e, scopes, m) =>
      if !a.ok then Done(w, id)
      else if !Unclaimed(w.db.tokens, h) then Go(w, id, Revoking(e.grant))
      else
        var db := w.db.(tokens := RotateToken(w.db.tokens, h, e, scopes, w.next));
        Respond(w.(db := db, next := w.next + 1), id, Issued(FromRefresh(h), e.user, e.client, e.resource, m, scopes, Some(w.next), e.via))
    case DeleteDevice(d) => Done(w, id).(db := w.db.(devices := w.db.devices - {d}))
    case PollDevice(d, slower) =>
      if d !in w.db.devices then Done(w, id)
      else Done(w, id).(db := w.db.(devices := w.db.devices[d := Polled(w.db.devices[d], slower, w.now)]))
    case DeviceAuth(d, e, user) => if !a.ok then Done(w, id) else Go(w, id, DeviceUser(d, e, user))
    case DeviceUser(d, e, user) => if !a.ok then Done(w, id) else Go(w, id, DeviceMint(d, e, user))
    case DeviceMint(d, e, user) =>
      var key := GrantKey(user, e.client, e.resource);
      var consented := if key in w.db.grants then w.db.grants[key].releasedClaims else [];
      (match Mint(w.reg, e.resource, AccessTokenScopes(e.scopes), consented, a.present)
        case None => Done(w, id)
        case Some(m) => Go(w, id, DeviceClaim(d, e, user, m)))
    case DeviceClaim(d, e, user, m) =>
      if !a.ok then Done(w, id)
      else
        var (db, claim) := ClaimDevice(w.db, d, e, user, w.reg, w.next, w.now);
        (match claim
          case Lost => Done(w, id)
          case GrantRevoked => Done(w, id).(db := db)
          case Claimed(refresh) =>
            Respond(w.(db := db, next := w.next + 1), id, Issued(FromDevice(d), user, e.client, e.resource, m, e.scopes, refresh, e.via)))
    case RevokeAuth(e) => if !a.ok then Done(w, id) else Go(w, id, Revoking(e.grant))
    case Revoking(g) =>
      Done(w, id).(db := w.db.(tokens := RevokeTokens(w.db.tokens, TokensOfGrant(w.db.tokens, g), w.now)))
    case _ => w
  }
}
