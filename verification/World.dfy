/** The authorization server as one transition system: the database, the registry in
    memory, every request in flight with the rows it has read, and a history that no
    guard reads. */
module World {
  import opened Basics
  import opened ResourceRegistry
  import opened Tables

  /** The credential a token response redeemed. */
  datatype Credential = FromCode(code: Hash) | FromDevice(device: Hash) | FromRefresh(token: Hash)

  /** One successful token response: the access token it carried, the `scope` field next
      to it, and the refresh token. */
  datatype Issued = Issued(
    credential: Credential, user: string, client: string, resource: string,
    token: Minted, scopeField: seq<string>, refresh: Option<Hash>, via: Option<Approval>)

  /** What a device code was created for, under its user code. */
  datatype DeviceBirth = DeviceBirth(client: string, resource: string, scopes: seq<string>)

  /** What users were asked and said: `shown` pairs a request with a claim its consent page
      listed. */
  datatype Facts = Facts(
    shown: set<(Hash, string)>,
    approved: set<Approval>,
    births: map<Hash, DeviceBirth>)

  datatype History = History(facts: Facts, completed: seq<Hash>, issued: seq<Issued>)

  /** A request between two awaits, with everything it has read so far. */
  datatype Flight =
    | DeleteCode(code: Hash)
    | CodeAuth(code: Hash, codeEntry: AuthCode)
    | CodeGrant(code: Hash, codeEntry: AuthCode)
    | CodeUser(code: Hash, codeEntry: AuthCode, consented: seq<string>)
    | CodeClaim(code: Hash, codeEntry: AuthCode, minted: Minted)
    | RefreshAuth(token: Hash, entry: RefreshToken, askedResource: Option<string>)
    | RefreshGrant(token: Hash, entry: RefreshToken)
    | RefreshUser(token: Hash, entry: RefreshToken, consented: seq<string>)
    | RefreshScopes(token: Hash, entry: RefreshToken, consented: seq<string>, kept: seq<string>)
    | RefreshRotate(token: Hash, entry: RefreshToken, scopes: seq<string>, minted: Minted)
    | DeleteDevice(device: Hash)
    | PollDevice(device: Hash, slower: Option<int>)
    | DeviceAuth(device: Hash, deviceEntry: DeviceCode, user: string)
    | DeviceUser(device: Hash, deviceEntry: DeviceCode, user: string)
    | DeviceMint(device: Hash, deviceEntry: DeviceCode, user: string)
    | DeviceClaim(device: Hash, deviceEntry: DeviceCode, user: string, minted: Minted)
    | RevokeAuth(revoked: RefreshToken)
    | Revoking(grant: GrantKey)
    | EnteredCode(deviceEntry: DeviceCode)
    | ConsentLoaded(handle: Hash, req: AuthRequest, approving: bool)
    | ConsentGroups(handle: Hash, req: AuthRequest, server: Server, approving: bool)
    | ConsentPin(handle: Hash, server: Server)
    | ConsentApprove(handle: Hash, req: AuthRequest, server: Server)
    | ConsentEnd(handle: Hash, req: AuthRequest)

  datatype World = World(
    now: Time,
    next: Hash,
    reg: Registry,
    db: Db,
    flights: map<Hash, Flight>,
    hist: History)

  /** What the outside answers an await with: `ok` stands for a client that resolves and
      authenticates, an active user whose upstream check passed, or a transaction that
      commits; `groups` and `present` come from the user's stored profile. */
  datatype Answer = Answer(ok: bool, groups: set<string>, present: set<string>)

  function Spawn(w: World, f: Flight): World {
    w.(flights := w.flights[w.next := f], next := w.next + 1)
  }

  function Go(w: World, id: Hash, f: Flight): World {
    w.(flights := w.flights[id := f])
  }

  function Done(w: World, id: Hash): World {
    w.(flights := w.flights - {id})
  }

  function Respond(w: World, id: Hash, x: Issued): World {
    Done(w, id).(hist := w.hist.(issued := w.hist.issued + [x]))
  }

  function Init(now: Time, reg: Registry): World {
    World(now, 0, reg, Db(map[], map[], map[], map[], map[]), map[], History(Facts({}, {}, map[]), [], []))
  }
}
