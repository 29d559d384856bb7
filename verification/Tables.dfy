/** The database rows of the authorization server and its atomic transactions. A random
    value (handle, code, device code, user code, refresh token) is named by the position
    at which it was drawn, and its SHA-256 digest by the same number. A grant is named by
    its unique key, since grant rows are never deleted. */
module Tables {
  import opened Basics
  import opened ResourceRegistry

  type Hash = nat

  datatype FlowType = OauthFlow | DeviceFlow | SelfLoginFlow

  /** `userCode` is the `state` column of a device flow; the `state` of an OAuth flow is
      only echoed. `challenge` is the verifier whose S256 digest is stored. */
  datatype AuthRequest = AuthRequest(
    flow: FlowType, client: string, resource: string, scopes: seq<string>, redirectUri: string,
    userCode: Option<Hash>, challenge: string, requireFresh: bool,
    subject: Option<string>, shownClaims: seq<string>, expiresAt: Time)

  /** An approving consent submission: the request as the handler loaded it. */
  datatype Approval = Approval(handle: Hash, req: AuthRequest)

  datatype GrantKey = GrantKey(user: string, client: string, resource: string)

  /** The `via` fields of the rows below are history: which approval a row stems from.
      No guard reads them. */
  datatype AuthCode = AuthCode(
    user: string, client: string, resource: string, scopes: seq<string>, redirectUri: string,
    challenge: string, grant: GrantKey, expiresAt: Time, consumedAt: Option<Time>, via: Option<Approval>)

  datatype DeviceStatus = Pending | Approved | Denied | Consumed

  datatype DeviceCode = DeviceCode(
    userCode: Hash, client: string, resource: string, scopes: seq<string>, status: DeviceStatus,
    user: Option<string>, lastPolledAt: Option<Time>, pollInterval: int, expiresAt: Time, via: Option<Approval>)

  datatype Grant = Grant(scopes: seq<string>, releasedClaims: seq<string>, revokedAt: Option<Time>)

  datatype RefreshToken = RefreshToken(
    user: string, client: string, resource: string, scopes: seq<string>, grant: GrantKey,
    expiresAt: Time, rotatedTo: Option<Hash>, revokedAt: Option<Time>, via: Option<Approval>)

  type TokenTable = map<Hash, RefreshToken>

  datatype Db = Db(
    requests: map<Hash, AuthRequest>,
    codes: map<Hash, AuthCode>,
    devices: map<Hash, DeviceCode>,
    grants: map<GrantKey, Grant>,
    tokens: TokenTable)

  const AUTH_CODE_TTL_MS := 10 * 60 * 1000
  const DEVICE_CODE_TTL_MS := 15 * 60 * 1000
  const AUTHORIZATION_REQUEST_TTL_MS := 10 * 60 * 1000
  const REFRESH_TOKEN_TTL_MS := 30 * 24 * 60 * 60 * 1000

  // ---------------------------------------------------------------- refresh tokens

  function TokensOfGrant(tokens: TokenTable, grant: GrantKey): set<Hash> {
    set h | h in tokens && tokens[h].grant == grant
  }

  predicate Unclaimed(tokens: TokenTable, h: Hash) {
    h in tokens && tokens[h].rotatedTo.None? && tokens[h].revokedAt.None?
  }

  /** Stamps the selected tokens that are not revoked yet. */
  function RevokeTokens(tokens: TokenTable, selected: set<Hash>, now: Time): TokenTable {
    map h | h in tokens :: if h in selected && tokens[h].revokedAt.None? then tokens[h].(revokedAt := Some(now)) else tokens[h]
  }

  /** issueRefreshToken: a new chain, 30 days long. */
  function NewToken(reg: Registry, user: string, client: string, resource: string, scopes: seq<string>, grant: GrantKey, via: Option<Approval>, now: Time): RefreshToken {
    RefreshToken(user, client, resource, RefreshableScopes(reg, resource, scopes), grant, now + REFRESH_TOKEN_TTL_MS, None, None, via)
  }

  /** The rotation transaction: claim the presented token, create its successor. */
  function RotateToken(tokens: TokenTable, h: Hash, entry: RefreshToken, scopes: seq<string>, drawn: Hash): TokenTable {
    if !Unclaimed(tokens, h) then tokens
    else
      tokens[h := tokens[h].(rotatedTo := Some(drawn))]
            [drawn := RefreshToken(entry.user, entry.client, entry.resource, scopes, entry.grant, entry.expiresAt, None, None, entry.via)]
  }

  function PruneTokens(tokens: TokenTable, cutoff: Time): TokenTable {
    map h | h in tokens && !(tokens[h].expiresAt < cutoff) :: tokens[h]
  }

  // ---------------------------------------------------------------- codes

  /** What a claiming transaction answered. */
  datatype Claim = Lost | GrantRevoked | Claimed(refresh: Option<Hash>)

  /** The code-exchange transaction. */
  function ClaimCode(db: Db, code: Hash, entry: AuthCode, reg: Registry, drawn: Hash, now: Time): (Db, Claim) {
    if code !in db.codes || db.codes[code].consumedAt.Some? then (db, Lost)
    else
      var claimed := db.(codes := db.codes[code := db.codes[code].(consumedAt := Some(now))]);
      if OFFLINE_ACCESS !in entry.scopes then (claimed, Claimed(None))
      else
        var token := NewToken(reg, entry.user, entry.client, entry.resource, entry.scopes, entry.grant, entry.via, now);
        (claimed.(tokens := claimed.tokens[drawn := token]), Claimed(Some(drawn)))
  }

  /** The device-code transaction; a revoked or missing grant consumes the code without
      issuing anything. */
  function ClaimDevice(db: Db, device: Hash, entry: DeviceCode, user: string, reg: Registry, drawn: Hash, now: Time): (Db, Claim) {
    if device !in db.devices || db.devices[device].status != Approved then (db, Lost)
    else
      var claimed := db.(devices := db.devices[device := db.devices[device].(status := Consumed)]);
      var key := GrantKey(user, entry.client, entry.resource);
      if key !in db.grants || db.grants[key].revokedAt.Some? then (claimed, GrantRevoked)
      else if OFFLINE_ACCESS !in entry.scopes then (claimed, Claimed(None))
      else
        var token := NewToken(reg, user, entry.client, entry.resource, entry.scopes, key, entry.via, now);
        (claimed.(tokens := claimed.tokens[drawn := token]), Claimed(Some(drawn)))
  }

  /** A poll of a pending device code; one that came too fast slows the next ones down. */
  function Polled(d: DeviceCode, slower: Option<int>, now: Time): DeviceCode {
    d.(lastPolledAt := Some(now), pollInterval := if slower.Some? then slower.value else d.pollInterval)
  }

  // ---------------------------------------------------------------- consent

  /** The grant after an approval: scopes and claims accumulate on a live grant, a revoked
      one starts over. Short-lived scopes are never stored; claims are those the page
      showed that `server` still releases. */
  function MergedGrant(grants: map<GrantKey, Grant>, key: GrantKey, req: AuthRequest, server: Server, reg: Registry): Grant {
    var live := key in grants && grants[key].revokedAt.None?;
    var scopes := (if live then grants[key].scopes else []) + req.scopes;
    var shortLived := set s | s in scopes && IsShortLivedScope(reg, req.resource, s);
    var shown := Keep(req.shownClaims, set c | c in server.releaseClaims);
    Grant(Dedupe(Drop(scopes, shortLived)),
          Dedupe((if live then grants[key].releasedClaims else []) + shown),
          None)
  }

  /** The code is unused and stands for the request as `user` approved it. */
  predicate IssuedFor(c: AuthCode, req: AuthRequest, user: string) {
    && c.user == user && c.client == req.client && c.resource == req.resource && c.scopes == req.scopes
    && c.redirectUri == req.redirectUri && c.challenge == req.challenge && c.consumedAt.None?
    && c.grant == GrantKey(user, req.client, req.resource)
  }

  /** Approving an OAuth flow: consume the request, merge the grant, create the code. */
  function ApproveRedirect(db: Db, handle: Hash, req: AuthRequest, user: string, server: Server, reg: Registry, drawn: Hash, now: Time): (r: (Db, bool))
    ensures r.1 <==> handle in db.requests
  {
    if handle !in db.requests then (db, false)
    else
      var key := GrantKey(user, req.client, req.resource);
      var code := AuthCode(user, req.client, req.resource, req.scopes, req.redirectUri, req.challenge, key, now + AUTH_CODE_TTL_MS, None, Some(Approval(handle, req)));
      (db.(requests := db.requests - {handle},
           grants := db.grants[key := MergedGrant(db.grants, key, req, server, reg)],
           codes := db.codes[drawn := code]),
       true)
  }

  /** What the transaction comes to: the first completion of the request leaves one unused code for
      what was approved, under a live grant; a later one leaves everything as it was. */
  lemma ApprovalIssuesCode(db: Db, handle: Hash, req: AuthRequest, user: string, server: Server, reg: Registry, drawn: Hash, now: Time)
    ensures var (db', issued) := ApproveRedirect(db, handle, req, user, server, reg, drawn, now);
      && (!issued ==> db' == db)
      && (issued ==> handle !in db'.requests && drawn in db'.codes && IssuedFor(db'.codes[drawn], req, user))
      && (issued ==> db'.codes[drawn].expiresAt == now + AUTH_CODE_TTL_MS)
      && (issued ==> db'.codes[drawn].grant in db'.grants && db'.grants[db'.codes[drawn].grant].revokedAt.None?)
      && db'.tokens == db.tokens && db'.devices == db.devices
      && forall c :: c in db.codes && c != drawn ==> c in db'.codes && db'.codes[c] == db.codes[c]
  {
  }

  datatype Completion = AlreadyConsumed | Stale | Completed

  /** The device rows completeDeviceFlow updates. */
  function PendingDevices(devices: map<Hash, DeviceCode>, userCode: Hash, client: string, now: Time): set<Hash> {
    set d | d in devices && devices[d].userCode == userCode && devices[d].status == Pending
            && devices[d].client == client && devices[d].expiresAt > now
  }

  /** completeDeviceFlow's transaction. `granting` is the user and server of an approval. */
  function CompleteDevice(db: Db, handle: Hash, req: AuthRequest, userCode: Hash, granting: Option<(string, Server)>, reg: Registry, now: Time): (Db, Completion) {
    if handle !in db.requests then (db, AlreadyConsumed)
    else
      var consumed := db.(requests := db.requests - {handle});
      var rows := PendingDevices(db.devices, userCode, req.client, now);
      if rows == {} then (consumed, Stale)
      else match granting
        case None =>
          (consumed.(devices := map d | d in db.devices :: if d in rows then db.devices[d].(status := Denied) else db.devices[d]), Completed)
        case Some((user, server)) =>
          var key := GrantKey(user, req.client, req.resource);
          (consumed.(
             devices := map d | d in db.devices ::
               if d in rows then db.devices[d].(status := Approved, user := Some(user), via := Some(Approval(handle, req))) else db.devices[d],
             grants := db.grants[key := MergedGrant(db.grants, key, req, server, reg)]),
           Completed)
  }

  /** Deny, and every refusal: consume the request and nothing else. */
  function ConsumeRequest(db: Db, handle: Hash): (Db, bool) {
    (db.(requests := db.requests - {handle}), handle in db.requests)
  }

  // ---------------------------------------------------------------- revocation

  /** POST /grants/:id/revoke: the grant is stamped even when it was revoked before. */
  function RevokeOneGrant(db: Db, key: GrantKey, now: Time): Db
    requires key in db.grants
  {
    db.(grants := db.grants[key := db.grants[key].(revokedAt := Some(now))],
        tokens := RevokeTokens(db.tokens, TokensOfGrant(db.tokens, key), now))
  }

  /** A denied client, a removed server or a deactivated user: live grants `keys` and the
      selected tokens are revoked in one transaction. */
  function RevokeGrants(db: Db, keys: set<GrantKey>, tokens: set<Hash>, now: Time): Db {
    db.(grants := map k | k in db.grants :: if k in keys && db.grants[k].revokedAt.None? then db.grants[k].(revokedAt := Some(now)) else db.grants[k],
        tokens := RevokeTokens(db.tokens, tokens, now))
  }
}
