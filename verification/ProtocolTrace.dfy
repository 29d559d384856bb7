/** Where access tokens come from: in every reachable state, under any interleaving, each
    token handed out traces back to one approved consent page. */
module ProtocolTrace {
  import opened Basics
  import opened ResourceRegistry
  import opened Tables
  import opened World
  import opened Protocol
  import TokenEndpoint
  import Consent

  /** Some approved request of this user, client and resource showed `claim` on its page. */
  ghost predicate ShownAndApproved(facts: Facts, key: GrantKey, claim: string) {
    exists a :: a in facts.approved && KeyOf(a) == Some(key) && (a.handle, claim) in facts.shown
  }

  /** The grant an approval is about. */
  function KeyOf(a: Approval): Option<GrantKey> {
    if a.req.subject.None? then None else Some(GrantKey(a.req.subject.value, a.req.client, a.req.resource))
  }

  /** The row stems from an approved request of the same user, client and resource, and
      carries no scope that request did not ask for. */
  ghost predicate StemsFrom(facts: Facts, via: Option<Approval>, key: GrantKey, scopes: seq<string>) {
    && via.Some?
    && via.value in facts.approved
    && KeyOf(via.value) == Some(key)
    && forall s :: s in scopes ==> s in via.value.req.scopes
  }

  ghost predicate RequestOk(facts: Facts, handle: Hash, r: AuthRequest) {
    && (forall c :: c in r.shownClaims ==> (handle, c) in facts.shown)
    && (r.flow == DeviceFlow && r.userCode.Some? ==> BornAs(facts, r.userCode.value, r.client, r.resource, r.scopes))
  }

  predicate BornAs(facts: Facts, userCode: Hash, client: string, resource: string, scopes: seq<string>) {
    userCode in facts.births && facts.births[userCode] == DeviceBirth(client, resource, scopes)
  }

  /** The code stands for its request: same redirect URI and PKCE challenge too. */
  ghost predicate CodeOk(facts: Facts, c: AuthCode) {
    && c.grant == GrantKey(c.user, c.client, c.resource)
    && StemsFrom(facts, c.via, c.grant, c.scopes)
    && c.redirectUri == c.via.value.req.redirectUri
    && c.challenge == c.via.value.req.challenge
  }

  ghost predicate DeviceOk(facts: Facts, d: DeviceCode) {
    && BornAs(facts, d.userCode, d.client, d.resource, d.scopes)
    && (d.status == Approved || d.status == Consumed ==>
          d.user.Some? && StemsFrom(facts, d.via, GrantKey(d.user.value, d.client, d.resource), d.scopes))
  }

  ghost predicate ClaimsOk(facts: Facts, key: GrantKey, claims: seq<string>) {
    forall c :: c in claims ==> ShownAndApproved(facts, key, c)
  }

  ghost predicate TokenOk(facts: Facts, t: RefreshToken) {
    t.grant == GrantKey(t.user, t.client, t.resource) && StemsFrom(facts, t.via, t.grant, t.scopes)
  }

  ghost predicate MintedOk(facts: Facts, via: Option<Approval>, key: GrantKey, m: Minted) {
    && StemsFrom(facts, via, key, m.scopes)
    && (forall s :: s in m.scopes ==> s in ScopeNames(m.server.scopes))
    && ClaimsOk(facts, key, m.claims)
    && (forall c :: c in m.claims ==> c in m.server.releaseClaims)
    && Lifetime(m)
  }

  ghost predicate DeviceFlightOk(facts: Facts, e: DeviceCode, user: string) {
    DeviceOk(facts, e) && e.status == Approved && e.user == Some(user)
  }

  ghost predicate FlightOk(facts: Facts, f: Flight) {
    match f
    case CodeAuth(_, e) => CodeOk(facts, e)
    case CodeGrant(_, e) => CodeOk(facts, e)
    case CodeUser(_, e, consented) => CodeOk(facts, e) && ClaimsOk(facts, e.grant, consented)
    case CodeClaim(_, e, m) => CodeOk(facts, e) && MintedOk(facts, e.via, e.grant, m)
    case RefreshAuth(_, e, _) => TokenOk(facts, e)
    case RefreshGrant(_, e) => TokenOk(facts, e)
    case RefreshUser(_, e, consented) => TokenOk(facts, e) && ClaimsOk(facts, e.grant, consented)
    case RefreshScopes(_, e, consented, kept) =>
      TokenOk(facts, e) && ClaimsOk(facts, e.grant, consented) && forall s :: s in kept ==> s in e.scopes
    case RefreshRotate(_, e, scopes, m) =>
      TokenOk(facts, e) && MintedOk(facts, e.via, e.grant, m) && forall s :: s in scopes ==> s in e.scopes
    case DeviceAuth(_, e, user) => DeviceFlightOk(facts, e, user)
    case DeviceUser(_, e, user) => DeviceFlightOk(facts, e, user)
    case DeviceMint(_, e, user) => DeviceFlightOk(facts, e, user)
    case DeviceClaim(_, e, user, m) => DeviceFlightOk(facts, e, user) && MintedOk(facts, e.via, GrantKey(user, e.client, e.resource), m)
    case EnteredCode(e) => BornAs(facts, e.userCode, e.client, e.resource, e.scopes)
    case ConsentLoaded(h, r, _) => RequestOk(facts, h, r)
    case ConsentGroups(h, r, _, _) => RequestOk(facts, h, r)
    case ConsentApprove(h, r, _) => RequestOk(facts, h, r)
    case ConsentEnd(h, r) => RequestOk(facts, h, r)
    case _ => true
  }

  /** The access token of a response is backed by an approval. */
  ghost predicate IssuedOk(facts: Facts, x: Issued) {
    MintedOk(facts, x.via, GrantKey(x.user, x.client, x.resource), x.token)
  }

  ghost predicate DbOk(facts: Facts, db: Db) {
    && (forall h :: h in db.requests ==> RequestOk(facts, h, db.requests[h]))
    && (forall h :: h in db.codes ==> CodeOk(facts, db.codes[h]))
    && (forall h :: h in db.devices ==> DeviceOk(facts, db.devices[h]))
    && (forall k :: k in db.grants ==> ClaimsOk(facts, k, db.grants[k].releasedClaims))
    && (forall h :: h in db.tokens ==> TokenOk(facts, db.tokens[h]))
  }

  ghost predicate TraceOk(facts: Facts, db: Db, flights: map<Hash, Flight>, issued: seq<Issued>) {
    && DbOk(facts, db)
    && (forall id :: id in flights ==> FlightOk(facts, flights[id]))
    && (forall x :: x in issued ==> IssuedOk(facts, x))
  }

  ghost predicate TraceInv(w: World) {
    && TraceOk(w.hist.facts, w.db, w.flights, w.hist.issued)
    && forall u :: u in w.hist.facts.births ==> u < w.next
  }

  // ---------------------------------------------------------------- more facts change nothing

  ghost predicate Extends(a: Facts, b: Facts) {
    && a.shown <= b.shown
    && a.approved <= b.approved
    && forall u :: u in a.births ==> u in b.births && b.births[u] == a.births[u]
  }

  lemma ClaimsStayOk(a: Facts, b: Facts, key: GrantKey, claims: seq<string>)
    requires Extends(a, b) && ClaimsOk(a, key, claims)
    ensures ClaimsOk(b, key, claims)
  {
    forall c | c in claims ensures ShownAndApproved(b, key, c) {
      assert ShownAndApproved(a, key, c);
    }
  }

  lemma FlightStaysOk(a: Facts, b: Facts, f: Flight)
    requires Extends(a, b) && FlightOk(a, f)
    ensures FlightOk(b, f)
  {
    match f
    case CodeUser(_, e, consented) => ClaimsStayOk(a, b, e.grant, consented);
    case CodeClaim(_, e, m) => ClaimsStayOk(a, b, e.grant, m.claims);
    case RefreshUser(_, e, consented) => ClaimsStayOk(a, b, e.grant, consented);
    case RefreshScopes(_, e, consented, _) => ClaimsStayOk(a, b, e.grant, consented);
    case RefreshRotate(_, e, _, m) => ClaimsStayOk(a, b, e.grant, m.claims);
    case DeviceClaim(_, e, user, m) => ClaimsStayOk(a, b, GrantKey(user, e.client, e.resource), m.claims);
    case _ =>
  }

  lemma MoreFacts(a: Facts, b: Facts, db: Db, flights: map<Hash, Flight>, issued: seq<Issued>)
    requires Extends(a, b) && TraceOk(a, db, flights, issued)
    ensures TraceOk(b, db, flights, issued)
  {
    forall k | k in db.grants ensures ClaimsOk(b, k, db.grants[k].releasedClaims) {
      ClaimsStayOk(a, b, k, db.grants[k].releasedClaims);
    }
    forall id | id in flights ensures FlightOk(b, flights[id]) {
      FlightStaysOk(a, b, flights[id]);
    }
    forall x | x in issued ensures IssuedOk(b, x) {
      ClaimsStayOk(a, b, GrantKey(x.user, x.client, x.resource), x.token.claims);
    }
  }

  // ---------------------------------------------------------------- token steps

  lemma MintTraces(facts: Facts, w: World, via: Option<Approval>, key: GrantKey, scopes: seq<string>, consented: seq<string>, present: set<string>)
    requires StemsFrom(facts, via, key, scopes) && ClaimsOk(facts, key, consented)
    requires key.resource in w.reg
    ensures MintedOk(facts, via, key, Mint(w.reg, key.resource, AccessTokenScopes(scopes), consented, present).value)
  {
  }

  lemma ClaimCodeTraces(facts: Facts, db: Db, code: Hash, e: AuthCode, reg: Registry, drawn: Hash, now: Time)
    requires DbOk(facts, db) && CodeOk(facts, e)
    ensures DbOk(facts, ClaimCode(db, code, e, reg, drawn, now).0)
  {
    assert TokenOk(facts, NewToken(reg, e.user, e.client, e.resource, e.scopes, e.grant, e.via, now));
    hide RequestOk, DeviceOk, TokenOk, ClaimsOk, NewToken, StemsFrom;
  }

  lemma ClaimDeviceTraces(facts: Facts, db: Db, d: Hash, e: DeviceCode, user: string, reg: Registry, drawn: Hash, now: Time)
    requires DbOk(facts, db) && DeviceFlightOk(facts, e, user)
    ensures DbOk(facts, ClaimDevice(db, d, e, user, reg, drawn, now).0)
  {
  }

  lemma RotateTraces(facts: Facts, db: Db, h: Hash, e: RefreshToken, scopes: seq<string>, drawn: Hash)
    requires DbOk(facts, db) && TokenOk(facts, e) && forall s :: s in scopes ==> s in e.scopes
    ensures DbOk(facts, db.(tokens := RotateToken(db.tokens, h, e, scopes, drawn)))
  {
  }

  lemma AdvanceTokenDb(w: World, id: Hash, a: Answer)
    requires TraceInv(w) && id in w.flights && !IsConsentFlight(w.flights[id])
    ensures DbOk(w.hist.facts, TokenEndpoint.AdvanceToken(w, id, a).db)
  {
    var facts := w.hist.facts;
    assert FlightOk(facts, w.flights[id]);
    hide ClaimCode, ClaimDevice, RotateToken, Mint, MintedOk, ClaimsOk;
    TokenStepDb(w, id, a);
    hide TokenEndpoint.AdvanceToken;
    match w.flights[id]
    case CodeClaim(code, e, m) => ClaimCodeTraces(facts, w.db, code, e, w.reg, w.next, w.now);
    case DeviceClaim(d, e, user, m) => ClaimDeviceTraces(facts, w.db, d, e, user, w.reg, w.next, w.now);
    case RefreshRotate(h, e, scopes, m) => RotateTraces(facts, w.db, h, e, scopes, w.next);
    case _ =>
  }

  predicate IsCodeFlight(f: Flight) {
    f.CodeAuth? || f.CodeGrant? || f.CodeUser? || f.CodeClaim?
  }

  predicate IsRefreshFlight(f: Flight) {
    f.RefreshAuth? || f.RefreshGrant? || f.RefreshUser? || f.RefreshScopes? || f.RefreshRotate?
  }

  lemma AdvanceCodeFlight(w: World, id: Hash, a: Answer)
    requires TraceInv(w) && id in w.flights && IsCodeFlight(w.flights[id])
    requires id in TokenEndpoint.AdvanceToken(w, id, a).flights
    ensures FlightOk(w.hist.facts, TokenEndpoint.AdvanceToken(w, id, a).flights[id])
  {
    var facts := w.hist.facts;
    assert FlightOk(facts, w.flights[id]);
    hide ClaimCode, ClaimDevice, RotateToken, RevokeTokens, Mint, MintedOk, ClaimsOk;
    match w.flights[id]
    case CodeGrant(_, e) => assert ClaimsOk(facts, e.grant, w.db.grants[e.grant].releasedClaims);
    case CodeUser(_, e, consented) => MintTraces(facts, w, e.via, e.grant, e.scopes, consented, a.present);
    case _ =>
  }

  lemma AdvanceRefreshFlight(w: World, id: Hash, a: Answer)
    requires TraceInv(w) && id in w.flights && IsRefreshFlight(w.flights[id])
    requires id in TokenEndpoint.AdvanceToken(w, id, a).flights
    ensures FlightOk(w.hist.facts, TokenEndpoint.AdvanceToken(w, id, a).flights[id])
  {
    var facts := w.hist.facts;
    assert FlightOk(facts, w.flights[id]);
    hide ClaimCode, ClaimDevice, RotateToken, RevokeTokens, Mint, MintedOk, ClaimsOk;
    match w.flights[id]
    case RefreshGrant(_, e) => assert ClaimsOk(facts, e.grant, w.db.grants[e.grant].releasedClaims);
    case RefreshScopes(_, e, consented, kept) => MintTraces(facts, w, e.via, e.grant, kept, consented, a.present);
    case _ =>
  }

  lemma AdvanceOtherFlight(w: World, id: Hash, a: Answer)
    requires TraceInv(w) && id in w.flights && !IsConsentFlight(w.flights[id]) && !IsCodeFlight(w.flights[id]) && !IsRefreshFlight(w.flights[id])
    requires id in TokenEndpoint.AdvanceToken(w, id, a).flights
    ensures FlightOk(w.hist.facts, TokenEndpoint.AdvanceToken(w, id, a).flights[id])
  {
    var facts := w.hist.facts;
    assert FlightOk(facts, w.flights[id]);
    hide ClaimCode, ClaimDevice, RotateToken, RevokeTokens, Mint, MintedOk, ClaimsOk;
    match w.flights[id]
    case DeviceMint(_, e, user) =>
      var key := GrantKey(user, e.client, e.resource);
      MintTraces(facts, w, e.via, key, e.scopes, if key in w.db.grants then w.db.grants[key].releasedClaims else [], a.present);
    case _ =>
  }

  lemma AdvanceTokenFlight(w: World, id: Hash, a: Answer)
    requires TraceInv(w) && id in w.flights && !IsConsentFlight(w.flights[id])
    requires id in TokenEndpoint.AdvanceToken(w, id, a).flights
    ensures FlightOk(w.hist.facts, TokenEndpoint.AdvanceToken(w, id, a).flights[id])
  {
    hide TokenEndpoint.AdvanceToken;
    if IsCodeFlight(w.flights[id]) {
      AdvanceCodeFlight(w, id, a);
    } else if IsRefreshFlight(w.flights[id]) {
      AdvanceRefreshFlight(w, id, a);
    } else {
      AdvanceOtherFlight(w, id, a);
    }
  }

  lemma AdvanceTokenIssues(w: World, id: Hash, a: Answer, x: Issued)
    requires TraceInv(w) && id in w.flights && !IsConsentFlight(w.flights[id])
    requires x in TokenEndpoint.AdvanceToken(w, id, a).hist.issued
    ensures IssuedOk(w.hist.facts, x)
  {
    assert FlightOk(w.hist.facts, w.flights[id]);
  }

  lemma AdvanceTokenFrame(w: World, id: Hash, a: Answer)
    requires id in w.flights && !IsConsentFlight(w.flights[id])
    ensures var w' := TokenEndpoint.AdvanceToken(w, id, a);
            w'.hist.facts == w.hist.facts && w'.next >= w.next && w'.flights - {id} == w.flights - {id}
  {
  }

  lemma AdvanceTokenTraces(w: World, id: Hash, a: Answer)
    requires TraceInv(w) && id in w.flights && !IsConsentFlight(w.flights[id])
    ensures TraceInv(TokenEndpoint.AdvanceToken(w, id, a))
  {
    var w' := TokenEndpoint.AdvanceToken(w, id, a);
    AdvanceTokenFrame(w, id, a);
    AdvanceTokenDb(w, id, a);
    forall x | x in w'.hist.issued ensures IssuedOk(w.hist.facts, x) {
      AdvanceTokenIssues(w, id, a, x);
    }
    forall other | other in w'.flights ensures FlightOk(w.hist.facts, w'.flights[other]) {
      if other == id {
        AdvanceTokenFlight(w, id, a);
      } else {
        SameAway(w.flights, w'.flights, id, other);
      }
    }
  }

  lemma SameAway(f: map<Hash, Flight>, g: map<Hash, Flight>, id: Hash, other: Hash)
    requires g - {id} == f - {id} && other != id && other in g
    ensures other in f && g[other] == f[other]
  {
    assert other in g - {id};
    assert (g - {id})[other] == (f - {id})[other];
  }

  // ---------------------------------------------------------------- consent steps

  lemma MergeTraces(facts: Facts, grants: map<GrantKey, Grant>, handle: Hash, req: AuthRequest, server: Server, reg: Registry)
    requires forall k :: k in grants ==> ClaimsOk(facts, k, grants[k].releasedClaims)
    requires RequestOk(facts, handle, req) && req.subject.Some? && Approval(handle, req) in facts.approved
    ensures var key := GrantKey(req.subject.value, req.client, req.resource);
            ClaimsOk(facts, key, MergedGrant(grants, key, req, server, reg).releasedClaims)
  {
    var key := GrantKey(req.subject.value, req.client, req.resource);
    var merged := MergedGrant(grants, key, req, server, reg);
    forall c | c in merged.releasedClaims ensures ShownAndApproved(facts, key, c) {
      if key in grants && c in grants[key].releasedClaims {
        assert ShownAndApproved(facts, key, c);
      } else {
        assert c in req.shownClaims;
        assert KeyOf(Approval(handle, req)) == Some(key);
      }
    }
  }

  lemma RedirectTraces(facts: Facts, db: Db, handle: Hash, req: AuthRequest, server: Server, reg: Registry, drawn: Hash, now: Time)
    requires DbOk(facts, db) && RequestOk(facts, handle, req) && req.subject.Some?
    requires handle in db.requests ==> Approval(handle, req) in facts.approved
    ensures DbOk(facts, ApproveRedirect(db, handle, req, req.subject.value, server, reg, drawn, now).0)
  {
    hide CodeOk, DeviceOk, TokenOk, ClaimsOk, MergedGrant;
    if handle in db.requests {
      MergeTraces(facts, db.grants, handle, req, server, reg);
      NewCodeOk(facts, handle, req, now);
    }
  }

  lemma NewCodeOk(facts: Facts, handle: Hash, req: AuthRequest, now: Time)
    requires req.subject.Some? && Approval(handle, req) in facts.approved
    ensures var user := req.subject.value;
      CodeOk(facts, AuthCode(user, req.client, req.resource, req.scopes, req.redirectUri, req.challenge,
                             GrantKey(user, req.client, req.resource), now + AUTH_CODE_TTL_MS, None, Some(Approval(handle, req))))
  {
  }

  lemma DeviceTraces(facts: Facts, db: Db, handle: Hash, req: AuthRequest, granting: Option<(string, Server)>, reg: Registry, now: Time)
    requires DbOk(facts, db) && RequestOk(facts, handle, req)
    requires req.flow == DeviceFlow && req.userCode.Some?
    requires granting.Some? ==> req.subject == Some(granting.value.0)
    requires granting.Some? && CompleteDevice(db, handle, req, req.userCode.value, granting, reg, now).1 == Completed ==> Approval(handle, req) in facts.approved
    ensures DbOk(facts, CompleteDevice(db, handle, req, req.userCode.value, granting, reg, now).0)
  {
    var (db', outcome) := CompleteDevice(db, handle, req, req.userCode.value, granting, reg, now);
    if granting.Some? && outcome == Completed {
      MergeTraces(facts, db.grants, handle, req, granting.value.1, reg);
      forall d | d in db'.devices ensures DeviceOk(facts, db'.devices[d]) {
        assert DeviceOk(facts, db.devices[d]);
      }
    }
  }

  lemma ApproveTraces(w: World, id: Hash, handle: Hash, req: AuthRequest, server: Server)
    requires TraceInv(w) && id in w.flights && RequestOk(w.hist.facts, handle, req)
    ensures TraceInv(Consent.ApproveConsent(w, id, handle, req, server))
  {
    hide ApproveRedirect, CompleteDevice, MergedGrant, DbOk, FlightOk, IssuedOk;
    var facts := Consent.ApproveConsent(w, id, handle, req, server).hist.facts;
    MoreFacts(w.hist.facts, facts, w.db, w.flights, w.hist.issued);
    if req.subject.Some? && req.flow != DeviceFlow {
      RedirectTraces(facts, w.db, handle, req, server, w.reg, w.next, w.now);
    } else if req.subject.Some? && req.userCode.Some? {
      DeviceTraces(facts, w.db, handle, req, Some((req.subject.value, server)), w.reg, w.now);
    }
  }

  lemma EndTraces(w: World, id: Hash, handle: Hash, req: AuthRequest)
    requires TraceInv(w) && id in w.flights && RequestOk(w.hist.facts, handle, req)
    ensures TraceInv(Consent.EndConsent(w, id, handle, req))
  {
    hide CompleteDevice, FlightOk, IssuedOk;
    if req.flow == DeviceFlow && req.userCode.Some? {
      hide DbOk;
      DeviceTraces(w.hist.facts, w.db, handle, req, None, w.reg, w.now);
    }
  }

  lemma PinTraces(w: World, id: Hash, a: Answer)
    requires TraceInv(w) && id in w.flights && w.flights[id].ConsentPin?
    ensures TraceInv(Consent.AdvanceConsent(w, id, a))
  {
    hide FlightOk, IssuedOk;
    var facts := Consent.AdvanceConsent(w, id, a).hist.facts;
    MoreFacts(w.hist.facts, facts, w.db, w.flights, w.hist.issued);
  }

  lemma EnteredTraces(w: World, id: Hash, a: Answer)
    requires TraceInv(w) && id in w.flights && w.flights[id].EnteredCode?
    ensures TraceInv(Consent.AdvanceConsent(w, id, a))
  {
    hide IssuedOk;
    assert FlightOk(w.hist.facts, w.flights[id]);
  }

  lemma CheckTraces(w: World, id: Hash, a: Answer)
    requires TraceInv(w) && id in w.flights && (w.flights[id].ConsentLoaded? || w.flights[id].ConsentGroups?)
    ensures TraceInv(Consent.AdvanceConsent(w, id, a))
  {
    hide IssuedOk, DbOk, FirstForbidden, RequestsFreshSignIn;
    assert FlightOk(w.hist.facts, w.flights[id]);
  }

  lemma AdvanceConsentTraces(w: World, id: Hash, a: Answer)
    requires TraceInv(w) && id in w.flights && IsConsentFlight(w.flights[id])
    ensures TraceInv(Consent.AdvanceConsent(w, id, a))
  {
    hide Consent.ApproveConsent, Consent.EndConsent, IssuedOk, DbOk;
    assert FlightOk(w.hist.facts, w.flights[id]);
    match w.flights[id]
    case ConsentApprove(handle, req, server) => if a.ok { ApproveTraces(w, id, handle, req, server); }
    case ConsentEnd(handle, req) => EndTraces(w, id, handle, req);
    case ConsentPin(_, _) => PinTraces(w, id, a);
    case EnteredCode(_) => EnteredTraces(w, id, a);
    case _ => CheckTraces(w, id, a);
  }

  // ---------------------------------------------------------------- arrivals and the environment

  lemma NewDeviceTraces(w: World, client: string, resource: string, scopes: seq<string>)
    requires TraceInv(w)
    ensures TraceInv(Consent.NewDeviceCode(w, client, resource, scopes))
  {
    hide FlightOk, IssuedOk;
    var facts := Consent.NewDeviceCode(w, client, resource, scopes).hist.facts;
    MoreFacts(w.hist.facts, facts, w.db, w.flights, w.hist.issued);
  }

  lemma SpawnTraces(w: World, f: Flight)
    requires TraceInv(w) && FlightOk(w.hist.facts, f)
    ensures TraceInv(Spawn(w, f))
  {
    hide IssuedOk, DbOk, FlightOk;
  }

  lemma TokenArrivalTraces(w: World, step: Step)
    requires TraceInv(w) && (step.Exchange? || step.Refresh? || step.Poll? || step.Revoke?)
    ensures TraceInv(Apply(w, step))
  {
    hide TraceInv, FlightOk, Apply;
    var f := Spawned(w, step);
    if f.Some? {
      SpawnedOk(w, step);
      SpawnTraces(w, f.value);
    }
  }

  lemma SpawnedOk(w: World, step: Step)
    requires TraceInv(w) && (step.Exchange? || step.Refresh? || step.Poll? || step.Revoke?) && Spawned(w, step).Some?
    ensures FlightOk(w.hist.facts, Spawned(w, step).value)
  {
    hide TokenEndpoint.Proves, CodeOk, TokenOk, StemsFrom, BornAs;
    match step
    case Poll(device, _, _) => assert device in w.db.devices ==> DeviceOk(w.hist.facts, w.db.devices[device]);
    case Exchange(r) => assert r.code in w.db.codes ==> CodeOk(w.hist.facts, w.db.codes[r.code]);
    case Refresh(token, _, _) => assert token in w.db.tokens ==> TokenOk(w.hist.facts, w.db.tokens[token]);
    case _ =>
  }

  /** The flight a token or revocation request starts, if it gets that far. */
  function Spawned(w: World, step: Step): (f: Option<Flight>)
    requires step.Exchange? || step.Refresh? || step.Poll? || step.Revoke?
    ensures Apply(w, step) == if f.Some? then Spawn(w, f.value) else w
  {
    var w' := Apply(w, step);
    if w' == w then None else Some(w'.flights[w.next])
  }

  lemma ConsentArrivalTraces(w: World, step: Step)
    requires TraceInv(w) && (step.LoadConsent? || step.DenyConsent? || step.EnterUserCode?)
    ensures TraceInv(Apply(w, step))
  {
    match step
    case LoadConsent(handle, user, approving) =>
      if Consent.CanLoad(w, handle, user) { SpawnTraces(w, ConsentLoaded(handle, w.db.requests[handle], approving)); }
    case DenyConsent(handle, user) =>
      if Consent.CanLoad(w, handle, user) { SpawnTraces(w, ConsentEnd(handle, w.db.requests[handle])); }
    case EnterUserCode(device) =>
      if device in w.db.devices {
        assert DeviceOk(w.hist.facts, w.db.devices[device]);
        SpawnTraces(w, EnteredCode(w.db.devices[device]));
      }
  }

  lemma RequestTraces(w: World, step: Step)
    requires TraceInv(w) && (step.Authorize? || step.SignIn? || step.Tick? || step.ReloadRegistry?)
    ensures TraceInv(Apply(w, step))
  {
    hide IssuedOk, FlightOk, StemsFrom;
  }

  lemma RevocationTraces(facts: Facts, db: Db, keys: set<GrantKey>, tokens: set<Hash>, now: Time)
    requires DbOk(facts, db)
    ensures DbOk(facts, RevokeGrants(db, keys, tokens, now))
  {
  }

  lemma PruneTraces(facts: Facts, db: Db, table: Pruned, cutoff: Time)
    requires DbOk(facts, db)
    ensures DbOk(facts, PruneTable(db, table, cutoff))
  {
  }

  lemma OneRevocationTraces(facts: Facts, db: Db, key: GrantKey, now: Time)
    requires DbOk(facts, db) && key in db.grants
    ensures DbOk(facts, RevokeOneGrant(db, key, now))
  {
    assert ClaimsOk(facts, key, db.grants[key].releasedClaims);
  }

  lemma NewRowsTrace(w: World, db: Db)
    requires TraceInv(w) && DbOk(w.hist.facts, db)
    ensures TraceInv(w.(db := db))
  {
    hide DbOk, FlightOk, IssuedOk;
  }

  lemma RemovalTraces(w: World, step: Step)
    requires TraceInv(w) && (step.RevokeGrant? || step.DenyClients? || step.RemoveServer? || step.DeactivateUser? || step.Prune?)
    ensures TraceInv(Apply(w, step))
  {
    hide RevokeGrants, RevokeOneGrant, PruneTable, TraceInv;
    assert DbOk(w.hist.facts, w.db) by { DbIsOk(w); }
    match step
    case DenyClients(clients) =>
      var keys := set k | k in w.db.grants && w.db.grants[k].revokedAt.None? && k.client in clients;
      var tokens := set h | h in w.db.tokens && w.db.tokens[h].grant in keys;
      RevocationTraces(w.hist.facts, w.db, keys, tokens, w.now);
      NewRowsTrace(w, RevokeGrants(w.db, keys, tokens, w.now));
    case RemoveServer(resource) =>
      var keys := set k | k in w.db.grants && k.resource == resource;
      var tokens := set h | h in w.db.tokens && w.db.tokens[h].resource == resource;
      RevocationTraces(w.hist.facts, w.db, keys, tokens, w.now);
      NewRowsTrace(w, RevokeGrants(w.db, keys, tokens, w.now));
    case DeactivateUser(user) =>
      var keys := set k | k in w.db.grants && k.user == user;
      var tokens := set h | h in w.db.tokens && w.db.tokens[h].user == user;
      RevocationTraces(w.hist.facts, w.db, keys, tokens, w.now);
      NewRowsTrace(w, RevokeGrants(w.db, keys, tokens, w.now));
    case Prune(table, cutoff) =>
      PruneTraces(w.hist.facts, w.db, table, cutoff);
      NewRowsTrace(w, PruneTable(w.db, table, cutoff));
    case RevokeGrant(key) =>
      if key in w.db.grants {
        OneRevocationTraces(w.hist.facts, w.db, key, w.now);
        NewRowsTrace(w, RevokeOneGrant(w.db, key, w.now));
      }
  }

  lemma DbIsOk(w: World)
    requires TraceInv(w)
    ensures DbOk(w.hist.facts, w.db)
  {
  }

  lemma StepKeepsTrace(w: World, step: Step)
    requires TraceInv(w)
    ensures TraceInv(Apply(w, step))
  {
    hide TraceInv, Consent.NewDeviceCode, TokenEndpoint.AdvanceToken, Consent.AdvanceConsent;
    match step
    case Advance(id, a) =>
      if id in w.flights {
        if IsConsentFlight(w.flights[id]) { AdvanceConsentTraces(w, id, a); } else { AdvanceTokenTraces(w, id, a); }
      }
    case NewDeviceCode(client, resource, scopes) => NewDeviceTraces(w, client, resource, scopes);
    case RevokeGrant(_) => RemovalTraces(w, step);
    case DenyClients(_) => RemovalTraces(w, step);
    case RemoveServer(_) => RemovalTraces(w, step);
    case DeactivateUser(_) => RemovalTraces(w, step);
    case Prune(_, _) => RemovalTraces(w, step);
    case Authorize(_, _, _, _, _, _) => RequestTraces(w, step);
    case SignIn(_, _) => RequestTraces(w, step);
    case Tick(_) => RequestTraces(w, step);
    case ReloadRegistry(_) => RequestTraces(w, step);
    case LoadConsent(_, _, _) => ConsentArrivalTraces(w, step);
    case DenyConsent(_, _) => ConsentArrivalTraces(w, step);
    case EnterUserCode(_) => ConsentArrivalTraces(w, step);
    case _ => TokenArrivalTraces(w, step);
  }

  lemma {:induction false} RunKeepsTrace(w: World, run: seq<Step>, n: nat)
    requires TraceInv(w) && n <= |run|
    ensures TraceInv(At(w, run, n))
  {
    if n > 0 {
      RunKeepsTrace(w, run, n - 1);
      StepKeepsTrace(At(w, run, n - 1), run[n - 1]);
    }
  }
}
