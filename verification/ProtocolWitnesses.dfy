/** Runs from an empty server that reach the situations of ProtocolTheorems in which a plausible
    claim fails: none of them is only a state on paper. */
module ProtocolWitnesses {
  import opened Basics
  import opened ResourceRegistry
  import opened Tables
  import opened World
  import opened Protocol
  import opened ProtocolChains
  import opened ProtocolTrace
  import opened ProtocolTheorems
  import ProtocolOnce
  import TokenEndpoint
  import Consent

  /** Who asks whom for offline access to what. */
  datatype Party = Party(user: string, client: string, resource: string, uri: string, challenge: string)

  /** A resource server without scopes of its own. */
  function Plain(p: Party): Server {
    Server(p.resource, p.resource, [], [])
  }

  function Registered(p: Party): Registry {
    map[p.resource := Plain(p)]
  }

  function GrantOf(p: Party): GrantKey {
    GrantKey(p.user, p.client, p.resource)
  }

  const YES := Answer(true, {}, {})

  /** The request once its user has signed in. */
  function SignedIn(p: Party, now: Time): AuthRequest {
    AuthRequest(OauthFlow, p.client, p.resource, [OFFLINE_ACCESS], p.uri, None, p.challenge, false, Some(p.user), [], now + AUTHORIZATION_REQUEST_TTL_MS)
  }

  // ---------------------------------------------------------------- runs in pieces

  /** The run leads from `w` to `w'`. */
  predicate Leads(w: World, run: seq<Step>, w': World) {
    At(w, run, |run|) == w'
  }

  lemma {:induction false} AtAppend(w: World, a: seq<Step>, b: seq<Step>)
    ensures At(w, a + b, |a + b|) == At(At(w, a, |a|), b, |b|)
  {
    hide Apply;
    if b == [] {
      assert a + b == a;
    } else {
      var front := b[..|b| - 1];
      AtAppend(w, a, front);
      SamePrefix(w, a + b, a + front, |a + front|);
      SamePrefix(At(w, a, |a|), b, front, |front|);
    }
  }

  lemma {:induction false} SamePrefix(w: World, a: seq<Step>, b: seq<Step>, n: nat)
    requires n <= |a| && n <= |b| && forall i :: 0 <= i < n ==> a[i] == b[i]
    ensures At(w, a, n) == At(w, b, n)
  {
    hide Apply;
    if n > 0 { SamePrefix(w, a, b, n - 1); }
  }

  lemma Then(w: World, a: seq<Step>, u: World, b: seq<Step>, v: World)
    requires Leads(w, a, u) && Leads(u, b, v)
    ensures Leads(w, a + b, v)
  {
    AtAppend(w, a, b);
    hide Apply;
  }

  lemma ThenStep(w: World, a: seq<Step>, u: World, step: Step)
    requires Leads(w, a, u)
    ensures Leads(w, a + [step], Apply(u, step))
  {
    hide Apply;
    assert At(u, [step], 1) == Apply(At(u, [step], 0), step);
    Then(w, a, u, [step], Apply(u, step));
  }

  // ---------------------------------------------------------------- consent

  /** The server stands ready: flights and rows are named by values drawn before. */
  ghost predicate Ready(w: World, p: Party) {
    w.reg == Registered(p) && SnapshotInv(w)
  }

  function Asked(w: World, p: Party): World {
    w.(db := w.db.(requests := w.db.requests[w.next := SignedIn(p, w.now)]), next := w.next + 1)
  }

  lemma AskAndSignIn(w: World, p: Party)
    requires w.reg == Registered(p)
    ensures Apply(Apply(w, Authorize(OauthFlow, p.client, p.resource, [OFFLINE_ACCESS], p.uri, p.challenge)), SignIn(w.next, p.user)) == Asked(w, p)
  {
  }

  /** Up to the point where the approval's transaction is next. */
  function Approving(w: World, p: Party): World {
    Spawn(Asked(w, p), ConsentApprove(w.next, SignedIn(p, w.now), Plain(p)))
  }

  lemma NothingForbidden(p: Party)
    ensures FirstForbidden([OFFLINE_ACCESS], Plain(p), {}).None? && !RequestsFreshSignIn(Plain(p), [OFFLINE_ACCESS])
  {
  }

  lemma Loads(w: World, p: Party)
    ensures Apply(Asked(w, p), LoadConsent(w.next, p.user, true)) == Spawn(Asked(w, p), ConsentLoaded(w.next, SignedIn(p, w.now), true))
  {
  }

  lemma FindsServer(u: World, h: Hash, req: AuthRequest, p: Party)
    requires u.reg == Registered(p) && req.resource == p.resource
    ensures Apply(Spawn(u, ConsentLoaded(h, req, true)), Advance(u.next, YES)) == Spawn(u, ConsentGroups(h, req, Plain(p), true))
  {
    hide FirstForbidden, RequestsFreshSignIn;
  }

  lemma PassesGates(u: World, h: Hash, req: AuthRequest, p: Party)
    requires req.scopes == [OFFLINE_ACCESS]
    ensures Apply(Spawn(u, ConsentGroups(h, req, Plain(p), true)), Advance(u.next, YES)) == Spawn(u, ConsentApprove(h, req, Plain(p)))
  {
    NothingForbidden(p);
    hide FirstForbidden, RequestsFreshSignIn;
  }

  lemma SubmitsAndPasses(w: World, p: Party)
    requires w.reg == Registered(p)
    ensures var id := w.next + 1;
      Apply(Apply(Apply(Asked(w, p), LoadConsent(w.next, p.user, true)), Advance(id, YES)), Advance(id, YES)) == Approving(w, p)
  {
    hide Apply;
    Loads(w, p);
    FindsServer(Asked(w, p), w.next, SignedIn(p, w.now), p);
    PassesGates(Asked(w, p), w.next, SignedIn(p, w.now), p);
  }

  lemma ReachApproving(w: World, p: Party) returns (run: seq<Step>)
    requires Ready(w, p)
    ensures Leads(w, run, Approving(w, p))
  {
    var ask, sign := Authorize(OauthFlow, p.client, p.resource, [OFFLINE_ACCESS], p.uri, p.challenge), SignIn(w.next, p.user);
    var load, advance := LoadConsent(w.next, p.user, true), Advance(w.next + 1, YES);
    hide Apply;
    AskAndSignIn(w, p);
    SubmitsAndPasses(w, p);
    ThenStep(w, [], w, ask);
    ThenStep(w, [] + [ask], Apply(w, ask), sign);
    var u := Asked(w, p);
    ThenStep(w, [] + [ask] + [sign], u, load);
    ThenStep(w, [] + [ask] + [sign] + [load], Apply(u, load), advance);
    ThenStep(w, [] + [ask] + [sign] + [load] + [advance], Apply(Apply(u, load), advance), advance);
    run := [] + [ask] + [sign] + [load] + [advance] + [advance];
  }

  // ---------------------------------------------------------------- code exchange

  /** A fresh code of the party under a live grant. */
  ghost predicate HasCode(w: World, p: Party, code: Hash) {
    && code in w.db.codes && GrantOf(p) in w.db.grants && w.db.grants[GrantOf(p)].revokedAt.None?
    && var c := w.db.codes[code];
    && c.user == p.user && c.client == p.client && c.resource == p.resource && c.scopes == [OFFLINE_ACCESS] && c.redirectUri == p.uri
    && c.challenge == p.challenge && c.grant == GrantOf(p) && c.expiresAt >= w.now && c.consumedAt.None?
  }

  lemma ApproveYieldsCode(w: World, p: Party)
    requires w.next + 1 !in w.flights
    ensures var w' := Apply(Approving(w, p), Advance(w.next + 1, YES));
      && HasCode(w', p, w.next + 2) && w'.next == w.next + 3 && w'.flights == w.flights && w'.db.tokens == w.db.tokens
      && w'.reg == w.reg && w'.now == w.now
  {
    hide Apply, ApproveRedirect, MergedGrant, FirstForbidden, RequestsFreshSignIn;
    var u := Approving(w, p);
    ApproveStep(u, w.next + 1, w.next, SignedIn(p, w.now), Plain(p));
    ApprovalIssuesCode(u.db, w.next, SignedIn(p, w.now), p.user, Plain(p), w.reg, w.next + 2, w.now);
    ApproveRedirectClaims(u.db, w.next, SignedIn(p, w.now), p.user, Plain(p), w.reg, w.next + 2, w.now);
    assert u.flights - {w.next + 1} == w.flights;
  }

  lemma ApproveRedirectClaims(db: Db, handle: Hash, req: AuthRequest, user: string, server: Server, reg: Registry, drawn: Hash, now: Time)
    ensures ApproveRedirect(db, handle, req, user, server, reg, drawn, now).1 <==> handle in db.requests
  {
    hide MergedGrant;
  }

  lemma ApproveStep(u: World, id: Hash, handle: Hash, req: AuthRequest, server: Server)
    requires id in u.flights && u.flights[id] == ConsentApprove(handle, req, server) && req.flow == OauthFlow && req.subject.Some?
    ensures var w', r := Apply(u, Advance(id, YES)), ApproveRedirect(u.db, handle, req, req.subject.value, server, u.reg, u.next, u.now);
      && w'.db == r.0 && w'.next == u.next + 1 && w'.flights == u.flights - {id} && w'.reg == u.reg && w'.now == u.now
  {
    hide ApproveRedirect, MergedGrant, FirstForbidden, RequestsFreshSignIn;
  }

  /** The exchange of that code, up to the point where its transaction is next. */
  ghost function Exchanging(w: World, p: Party, code: Hash): World
    requires HasCode(w, p, code) && w.reg == Registered(p)
  {
    Spawn(w, CodeClaim(code, w.db.codes[code],
      Mint(w.reg, p.resource, AccessTokenScopes(w.db.codes[code].scopes), w.db.grants[GrantOf(p)].releasedClaims, {}).value))
  }

  function Presenting(p: Party, code: Hash): TokenEndpoint.CodeRequest {
    TokenEndpoint.CodeRequest(code, p.client, p.uri, Some(p.challenge), true, None)
  }

  lemma Presented(w: World, p: Party, code: Hash)
    requires HasCode(w, p, code)
    ensures Apply(w, Exchange(Presenting(p, code))) == Spawn(w, CodeAuth(code, w.db.codes[code]))
  {
  }

  lemma Authenticates(w: World, code: Hash, e: AuthCode)
    requires e.consumedAt.None?
    ensures Apply(Spawn(w, CodeAuth(code, e)), Advance(w.next, YES)) == Spawn(w, CodeGrant(code, e))
  {
    hide Mint, ClaimCode, ClaimDevice;
  }

  lemma FindsGrant(w: World, code: Hash, e: AuthCode)
    requires e.grant in w.db.grants && w.db.grants[e.grant].revokedAt.None?
    ensures Apply(Spawn(w, CodeGrant(code, e)), Advance(w.next, YES)) == Spawn(w, CodeUser(code, e, w.db.grants[e.grant].releasedClaims))
  {
    hide Mint, ClaimCode, ClaimDevice;
  }

  lemma Mints(w: World, code: Hash, e: AuthCode, claims: seq<string>)
    requires e.resource in w.reg
    ensures Apply(Spawn(w, CodeUser(code, e, claims)), Advance(w.next, YES))
      == Spawn(w, CodeClaim(code, e, Mint(w.reg, e.resource, AccessTokenScopes(e.scopes), claims, {}).value))
  {
    hide Mint, ClaimCode, ClaimDevice;
  }

  lemma ExchangeSteps(w: World, p: Party, code: Hash)
    requires w.reg == Registered(p) && HasCode(w, p, code)
    ensures var advance := Advance(w.next, YES);
      Apply(Apply(Apply(Apply(w, Exchange(Presenting(p, code))), advance), advance), advance) == Exchanging(w, p, code)
  {
    hide Apply, Mint;
    var e := w.db.codes[code];
    Presented(w, p, code);
    Authenticates(w, code, e);
    FindsGrant(w, code, e);
    Mints(w, code, e, w.db.grants[GrantOf(p)].releasedClaims);
  }

  lemma ReachExchanging(w: World, p: Party, code: Hash) returns (run: seq<Step>)
    requires w.reg == Registered(p) && HasCode(w, p, code)
    ensures Leads(w, run, Exchanging(w, p, code))
  {
    var exchange, advance := Exchange(Presenting(p, code)), Advance(w.next, YES);
    hide Apply, HasCode;
    ExchangeSteps(w, p, code);
    var w1 := Apply(w, exchange);
    ThenStep(w, [], w, exchange);
    ThenStep(w, [] + [exchange], w1, advance);
    ThenStep(w, [] + [exchange] + [advance], Apply(w1, advance), advance);
    ThenStep(w, [] + [exchange] + [advance] + [advance], Apply(Apply(w1, advance), advance), advance);
    run := [] + [exchange] + [advance] + [advance] + [advance];
  }

  /** From an approval to an exchange past its grant check. */
  lemma ReachClaim(w: World, p: Party) returns (run: seq<Step>, u: World, code: Hash)
    requires Ready(w, p)
    ensures u.flights == w.flights && u.db.tokens == w.db.tokens && u.next > w.next && u.reg == Registered(p) && u.now == w.now
    ensures HasCode(u, p, code) && Leads(w, run, Exchanging(u, p, code))
    ensures SnapshotInv(u) && SnapshotInv(Exchanging(u, p, code))
  {
    hide Apply, SnapshotInv, HasCode;
    FreshNames(w, p);
    var approve := ReachApproving(w, p);
    u, code := Apply(Approving(w, p), Advance(w.next + 1, YES)), w.next + 2;
    ThenStep(w, approve, Approving(w, p), Advance(w.next + 1, YES));
    ApproveYieldsCode(w, p);
    var exchange := ReachExchanging(u, p, code);
    Then(w, approve + [Advance(w.next + 1, YES)], u, exchange, Exchanging(u, p, code));
    run := approve + [Advance(w.next + 1, YES)] + exchange;
    StaysSound(w, approve + [Advance(w.next + 1, YES)], u);
    StaysSound(w, run, Exchanging(u, p, code));
  }

  lemma FreshNames(w: World, p: Party)
    requires Ready(w, p)
    ensures w.next !in w.flights && w.next + 1 !in w.flights
  {
  }

  lemma StaysSound(w: World, run: seq<Step>, w': World)
    requires SnapshotInv(w) && Leads(w, run, w')
    ensures SnapshotInv(w')
  {
    RunKeepsSnapshots(w, run, |run|);
  }

  // ---------------------------------------------------------------- the straddling exchange

  /** A live refresh token of the party, fit to be presented. */
  ghost predicate HasToken(tokens: TokenTable, p: Party, t: Hash, expiresAt: Time) {
    && t in tokens
    && var r := tokens[t];
    && r.grant == GrantOf(p) && r.client == p.client && r.resource == p.resource && r.expiresAt == expiresAt
    && r.revokedAt.None? && r.rotatedTo.None?
  }

  lemma ClaimStep(y: World, u: World, p: Party, code: Hash)
    requires u.reg == Registered(p) && HasCode(u, p, code)
    requires y.reg == u.reg && y.now == u.now && y.next == u.next + 1 && y.db.codes == u.db.codes && y.flights == Exchanging(u, p, code).flights
    requires u.next !in u.flights && u.next + 1 !in y.db.tokens
    ensures var w' := Apply(y, Advance(u.next, YES));
      && HasToken(w'.db.tokens, p, u.next + 1, u.now + REFRESH_TOKEN_TTL_MS) && w'.flights == u.flights && w'.reg == u.reg && w'.now == u.now
      && w'.db.grants == y.db.grants && w'.db.tokens - {u.next + 1} == y.db.tokens
  {
    hide Mint, RefreshableScopes;
    var e := u.db.codes[code];
    var token := NewToken(y.reg, e.user, e.client, e.resource, e.scopes, e.grant, e.via, y.now);
    assert OFFLINE_ACCESS in e.scopes;
    var w' := Apply(y, Advance(u.next, YES));
    assert w'.db == y.db.(codes := y.db.codes[code := e.(consumedAt := Some(y.now))], tokens := y.db.tokens[u.next + 1 := token]);
    assert w'.flights == y.flights - {u.next};
    assert y.flights - {u.next} == u.flights;
    assert y.db.tokens[u.next + 1 := token] - {u.next + 1} == y.db.tokens;
  }

  lemma NamesAreOld(u: World)
    requires SnapshotInv(u)
    ensures u.next !in u.flights && forall h :: h in u.db.tokens ==> h < u.next
  {
  }

  lemma RevocationStep(x: World, g: GrantKey)
    requires g in x.db.grants
    ensures var y := Apply(x, Protocol.RevokeGrant(g));
      && y.reg == x.reg && y.now == x.now && y.next == x.next && y.db.codes == x.db.codes && y.flights == x.flights
      && y.db.tokens.Keys == x.db.tokens.Keys && IsRevokedGrant(y, g)
  {
  }

  lemma ClaimYieldsToken(u: World, p: Party, code: Hash)
    requires SnapshotInv(u) && u.reg == Registered(p) && HasCode(u, p, code)
    ensures var w' := Apply(Exchanging(u, p, code), Advance(u.next, YES));
      && HasToken(w'.db.tokens, p, u.next + 1, u.now + REFRESH_TOKEN_TTL_MS) && w'.reg == u.reg && w'.now == u.now
      && w'.db.grants == u.db.grants && w'.db.tokens - {u.next + 1} == u.db.tokens
  {
    NamesAreOld(u);
    hide Apply, SnapshotInv, HasCode, HasToken;
    ClaimStep(Exchanging(u, p, code), u, p, code);
  }

  lemma StraddlingClaimYieldsToken(u: World, p: Party, code: Hash)
    requires SnapshotInv(u) && u.reg == Registered(p) && HasCode(u, p, code)
    ensures var w' := Apply(Apply(Exchanging(u, p, code), Protocol.RevokeGrant(GrantOf(p))), Advance(u.next, YES));
      && HasToken(w'.db.tokens, p, u.next + 1, u.now + REFRESH_TOKEN_TTL_MS) && w'.reg == u.reg && w'.now == u.now && IsRevokedGrant(w', GrantOf(p))
  {
    NamesAreOld(u);
    assert GrantOf(p) in Exchanging(u, p, code).db.grants;
    hide Apply, SnapshotInv, HasCode, HasToken;
    RevocationStep(Exchanging(u, p, code), GrantOf(p));
    ClaimStep(Apply(Exchanging(u, p, code), Protocol.RevokeGrant(GrantOf(p))), u, p, code);
  }

  /** Presenting the token, up to the grant check. */
  lemma RefreshArrives(w: World, p: Party, t: Hash, expiresAt: Time)
    requires w.reg == Registered(p) && HasToken(w.db.tokens, p, t, expiresAt) && expiresAt >= w.now
    ensures Apply(Apply(w, Refresh(t, p.client, None)), Advance(w.next, YES)) == Spawn(w, RefreshGrant(t, w.db.tokens[t]))
  {
    var w1 := Apply(w, Refresh(t, p.client, None));
    assert w1 == Spawn(w, RefreshAuth(t, w.db.tokens[t], None));
    hide Mint, ClaimCode, ClaimDevice;
  }

  /** From an empty server: an exchange past its grant check that still issues (`first`); the user
      revokes the grant, the exchange commits, and a second approval meets a refresh with its
      token, under the revoked grant (`second`). */
  lemma StraddlingIsReached(p: Party) returns (first: seq<Step>, id: Hash, second: seq<Step>, c: Hash, refresh: Hash)
    ensures var w := At(Init(0, Registered(p)), first, |first|);
      PastGrantCheck(w, id) && StillIssues(w, w.flights[id]) && !IsRevokedGrant(w, GrantOf(p))
    ensures var w := At(Init(0, Registered(p)), first + [Protocol.RevokeGrant(GrantOf(p)), Advance(id, YES)] + second, |first + [Protocol.RevokeGrant(GrantOf(p)), Advance(id, YES)] + second|);
      Revives(w, c, refresh)
  {
    hide Apply, SnapshotInv, HasCode, HasToken;
    var w0 := Init(0, Registered(p));
    EmptyIsReady(p);
    var u, code;
    first, u, code := ReachClaim(w0, p);
    id := u.next;
    var x := Exchanging(u, p, code);
    ExchangingIssues(u, p, code);
    var revoke := Protocol.RevokeGrant(GrantOf(p));
    StraddlingClaimYieldsToken(u, p, code);
    ThenStep(w0, first, x, revoke);
    ThenStep(w0, first + [revoke], Apply(x, revoke), Advance(id, YES));
    var v := Apply(Apply(x, revoke), Advance(id, YES));
    assert first + [revoke] + [Advance(id, YES)] == first + [revoke, Advance(id, YES)];
    StaysSound(w0, first + [revoke, Advance(id, YES)], v);
    second, c, refresh := ReachRevival(v, p, u.next + 1);
    Then(w0, first + [revoke, Advance(id, YES)], v, second, At(v, second, |second|));
    hide At;
  }

  /** The approval of flight `c` is about to revive the token of flight `refresh`. */
  predicate Revives(w: World, c: Hash, refresh: Hash) {
    && ApprovalMeetsRefresh(w, c, refresh) && IsRevokedGrant(w, w.flights[refresh].entry.grant)
    && CanComplete(w, w.flights[c].handle, w.flights[c].req)
  }

  lemma EmptyIsReady(p: Party)
    ensures Ready(Init(0, Registered(p)), p)
  {
  }

  lemma ExchangingIssues(u: World, p: Party, code: Hash)
    requires u.reg == Registered(p) && HasCode(u, p, code) && SnapshotInv(Exchanging(u, p, code))
    ensures var w := Exchanging(u, p, code);
      PastGrantCheck(w, u.next) && StillIssues(w, w.flights[u.next]) && !IsRevokedGrant(w, GrantOf(p))
  {
    hide SnapshotInv, Mint;
  }

  lemma ReachRevival(v: World, p: Party, t: Hash) returns (run: seq<Step>, c: Hash, refresh: Hash)
    requires Ready(v, p) && HasToken(v.db.tokens, p, t, REFRESH_TOKEN_TTL_MS) && v.now == 0 && IsRevokedGrant(v, GrantOf(p))
    ensures Revives(At(v, run, |run|), c, refresh)
  {
    hide Apply, SnapshotInv;
    FreshNames(v, p);
    var approve := ReachApproving(v, p);
    var a := Approving(v, p);
    c, refresh := v.next + 1, v.next + 2;
    RefreshArrives(a, p, t, REFRESH_TOKEN_TTL_MS);
    var present, advance := Refresh(t, p.client, None), Advance(a.next, YES);
    ThenStep(v, approve, a, present);
    ThenStep(v, approve + [present], Apply(a, present), advance);
    run := approve + [present] + [advance];
    assert At(v, run, |run|) == Spawn(a, RefreshGrant(t, a.db.tokens[t]));
    hide At;
  }

  // ---------------------------------------------------------------- the burnt code

  /** The exchange of flight `id` passed all its checks, but its code is gone unredeemed. */
  ghost predicate CodeBurnt(w: World, id: Hash) {
    && id in w.flights && w.flights[id].CodeClaim? && w.flights[id].code !in w.db.codes
    && !ProtocolOnce.Redeemed(w.hist.issued, FromCode(w.flights[id].code))
  }

  lemma WrongUriBurns(u: World, p: Party, code: Hash)
    requires u.reg == Registered(p) && HasCode(u, p, code) && ProtocolOnce.OnceInv(Exchanging(u, p, code))
    ensures var x := Exchanging(u, p, code);
      CodeBurnt(Apply(Apply(x, Exchange(Presenting(p, code).(redirectUri := p.uri + "x"))), Advance(x.next, YES)), u.next)
  {
    var x := Exchanging(u, p, code);
    ConsumedIsRedeemed(x, code);
    assert x.db.codes[code].consumedAt.None?;
    hide ProtocolOnce.OnceInv, ProtocolOnce.Redeemed, Mint;
    assert p.uri + "x" != p.uri;
    var y := Apply(x, Exchange(Presenting(p, code).(redirectUri := p.uri + "x")));
    assert y == Spawn(x, DeleteCode(code));
  }

  /** From an empty server: while one request exchanges a code, another presents it with a wrong
      redirect URI. By LostExchange the first then revokes the family, though nothing was
      redeemed twice. */
  lemma BurntCodeIsReached(p: Party) returns (run: seq<Step>, id: Hash)
    ensures CodeBurnt(At(Init(0, Registered(p)), run, |run|), id)
  {
    hide Apply, SnapshotInv, HasCode, ProtocolOnce.OnceInv, CodeBurnt;
    var w0 := Init(0, Registered(p));
    EmptyIsReady(p);
    EmptyIsSound(0, Registered(p));
    var first, u, code := ReachClaim(w0, p);
    var x := Exchanging(u, p, code);
    ProtocolOnce.RunKeepsOnce(w0, first, |first|);
    WrongUriBurns(u, p, code);
    var wrong := Exchange(Presenting(p, code).(redirectUri := p.uri + "x"));
    ThenStep(w0, first, x, wrong);
    ThenStep(w0, first + [wrong], Apply(x, wrong), Advance(x.next, YES));
    run, id := first + [wrong] + [Advance(x.next, YES)], u.next;
    hide At;
  }

  // ---------------------------------------------------------------- the pruned rotation

  /** A complete authorization: consent, code, refresh token. */
  lemma ReachToken(w: World, p: Party) returns (run: seq<Step>, w': World, t: Hash)
    requires Ready(w, p)
    ensures Leads(w, run, w') && Ready(w', p) && HasToken(w'.db.tokens, p, t, w.now + REFRESH_TOKEN_TTL_MS)
    ensures w'.now == w.now && w'.db.tokens - {t} == w.db.tokens && t >= w.next
    ensures GrantOf(p) in w'.db.grants && w'.db.grants[GrantOf(p)].revokedAt.None?
  {
    hide Apply, SnapshotInv, HasCode, HasToken;
    var claim, u, code := ReachClaim(w, p);
    LiveGrant(u, p, code);
    ClaimYieldsToken(u, p, code);
    var x := Exchanging(u, p, code);
    ThenStep(w, claim, x, Advance(u.next, YES));
    run, w', t := claim + [Advance(u.next, YES)], Apply(x, Advance(u.next, YES)), u.next + 1;
    StaysSound(w, run, w');
  }

  lemma LiveGrant(u: World, p: Party, code: Hash)
    requires HasCode(u, p, code)
    ensures GrantOf(p) in u.db.grants && u.db.grants[GrantOf(p)].revokedAt.None?
  {
  }

  /** Presenting the token, up to the point where its rotation is next. */
  lemma RefreshReachesRotation(w: World, p: Party, t: Hash, expiresAt: Time)
    requires w.reg == Registered(p) && HasToken(w.db.tokens, p, t, expiresAt) && GrantOf(p) in w.db.grants && w.db.grants[GrantOf(p)].revokedAt.None?
    ensures var advance := Advance(w.next, YES);
      var w' := Apply(Apply(Apply(Spawn(w, RefreshGrant(t, w.db.tokens[t])), advance), advance), advance);
      && w'.db == w.db && w'.now == w.now && w.next in w'.flights && w'.flights[w.next].RefreshRotate?
      && w'.flights[w.next].token == t && w'.flights[w.next].entry == w.db.tokens[t]
  {
    hide Apply;
    var e, claims := w.db.tokens[t], w.db.grants[GrantOf(p)].releasedClaims;
    FindsTokenGrant(w, t, e);
    ChecksUser(w, t, e, claims);
    var w2 := Apply(Spawn(w, RefreshUser(t, e, claims)), Advance(w.next, YES));
    MintsForRefresh(w2, w.next);
  }

  lemma FindsTokenGrant(w: World, t: Hash, e: RefreshToken)
    requires e.grant in w.db.grants && w.db.grants[e.grant].revokedAt.None?
    ensures Apply(Spawn(w, RefreshGrant(t, e)), Advance(w.next, YES)) == Spawn(w, RefreshUser(t, e, w.db.grants[e.grant].releasedClaims))
  {
    hide Mint, ClaimCode, ClaimDevice;
  }

  lemma ChecksUser(w: World, t: Hash, e: RefreshToken, claims: seq<string>)
    ensures var w' := Apply(Spawn(w, RefreshUser(t, e, claims)), Advance(w.next, YES));
      && w'.db == w.db && w'.now == w.now && w'.reg == w.reg && w.next in w'.flights && w'.flights[w.next].RefreshScopes?
      && w'.flights[w.next].token == t && w'.flights[w.next].entry == e
  {
    hide Mint, ClaimCode, ClaimDevice, PermittedScopes, RefreshableScopes;
  }

  lemma MintsForRefresh(w: World, id: Hash)
    requires id in w.flights && w.flights[id].RefreshScopes? && w.flights[id].entry.resource in w.reg
    ensures var w' := Apply(w, Advance(id, YES));
      && w'.db == w.db && w'.now == w.now && id in w'.flights && w'.flights[id].RefreshRotate?
      && w'.flights[id].token == w.flights[id].token && w'.flights[id].entry == w.flights[id].entry
  {
    hide Mint, ClaimCode, ClaimDevice, PermittedScopes, RefreshableScopes;
  }

  const DAY := 24 * 60 * 60 * 1000

  lemma Waiting(w: World, ms: nat)
    ensures Apply(w, Tick(ms)) == w.(now := w.now + ms)
  {
  }

  /** From an empty server: two authorizations a day apart, a refresh with the first token that is
      about to rotate, and the 30 days of that token ending meanwhile. */
  lemma PrunedRotationIsReached(p: Party) returns (run: seq<Step>, id: Hash, cutoff: Time, other: Hash)
    ensures PruningOvertakes(At(Init(0, Registered(p)), run, |run|), id, cutoff, other)
  {
    hide Apply, SnapshotInv, HasToken;
    var w0 := Init(0, Registered(p));
    EmptyIsReady(p);
    var a, w1, t := ReachToken(w0, p);
    Waiting(w1, DAY);
    var w2 := w1.(now := w1.now + DAY);
    ThenStep(w0, a, w1, Tick(DAY));
    StaysSound(w0, a + [Tick(DAY)], w2);
    var b, w3, s := ReachToken(w2, p);
    Then(w0, a + [Tick(DAY)], w2, b, w3);
    KeepsToken(w2, w3, p, t, s);
    var rest, w4 := ReachRotation(w3, p, t);
    Then(w0, a + [Tick(DAY)] + b, w3, rest, w4);
    Waiting(w4, 29 * DAY + 1);
    ThenStep(w0, a + [Tick(DAY)] + b + rest, w4, Tick(29 * DAY + 1));
    run, id, cutoff, other := a + [Tick(DAY)] + b + rest + [Tick(29 * DAY + 1)], w3.next, 30 * DAY + 1, s;
    Overtaken(w3, w4, p, t, s);
    hide At;
  }

  lemma KeepsToken(w: World, w': World, p: Party, t: Hash, s: Hash)
    requires SnapshotInv(w) && HasToken(w.db.tokens, p, t, REFRESH_TOKEN_TTL_MS) && w'.db.tokens - {s} == w.db.tokens && s >= w.next
    ensures HasToken(w'.db.tokens, p, t, REFRESH_TOKEN_TTL_MS) && s != t
  {
    assert t in w'.db.tokens - {s} && w'.db.tokens[t] == (w'.db.tokens - {s})[t];
  }

  lemma ReachRotation(w: World, p: Party, t: Hash) returns (run: seq<Step>, w': World)
    requires w.reg == Registered(p) && HasToken(w.db.tokens, p, t, REFRESH_TOKEN_TTL_MS) && w.now <= REFRESH_TOKEN_TTL_MS
    requires GrantOf(p) in w.db.grants && w.db.grants[GrantOf(p)].revokedAt.None?
    ensures Leads(w, run, w') && w'.db == w.db && w'.now == w.now
    ensures w.next in w'.flights && w'.flights[w.next].RefreshRotate? && w'.flights[w.next].token == t && w'.flights[w.next].entry == w.db.tokens[t]
  {
    hide Apply;
    var present, advance := Refresh(t, p.client, None), Advance(w.next, YES);
    RefreshArrives(w, p, t, REFRESH_TOKEN_TTL_MS);
    RefreshReachesRotation(w, p, t, REFRESH_TOKEN_TTL_MS);
    ThenStep(w, [], w, present);
    ThenStep(w, [] + [present], Apply(w, present), advance);
    var g := Spawn(w, RefreshGrant(t, w.db.tokens[t]));
    ThenStep(w, [] + [present] + [advance], g, advance);
    ThenStep(w, [] + [present] + [advance] + [advance], Apply(g, advance), advance);
    ThenStep(w, [] + [present] + [advance] + [advance] + [advance], Apply(Apply(g, advance), advance), advance);
    run := [] + [present] + [advance] + [advance] + [advance] + [advance];
    w' := Apply(Apply(Apply(g, advance), advance), advance);
  }

  lemma Overtaken(w3: World, w4: World, p: Party, t: Hash, s: Hash)
    requires HasToken(w3.db.tokens, p, t, 30 * DAY) && HasToken(w3.db.tokens, p, s, 31 * DAY) && w4.db == w3.db && w4.now == DAY
    requires w3.next in w4.flights && w4.flights[w3.next].RefreshRotate? && w4.flights[w3.next].token == t && w4.flights[w3.next].entry == w3.db.tokens[t]
    ensures PruningOvertakes(w4.(now := w4.now + (29 * DAY + 1)), w3.next, 30 * DAY + 1, s)
  {
  }
}
