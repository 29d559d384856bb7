/** What a token response went through: every check its request passed, at which step, against
    which state, and what it therefore says. */
module ProtocolResponses {
  import opened Basics
  import opened ResourceRegistry
  import opened Tables
  import opened World
  import opened Protocol
  import opened ProtocolChains
  import opened ProtocolTrace
  import opened ProtocolTheorems
  import TokenEndpoint
  import Consent

  // ---------------------------------------------------------------- where a flight comes from

  /** The step gave flight `id` the phase `f`: its own advance, or its arrival. */
  ghost predicate Enters(w: World, step: Step, id: Hash, f: Flight) {
    && id in Apply(w, step).flights && Apply(w, step).flights[id] == f
    && if id in w.flights then step.Advance? && step.flight == id else !step.Advance? && id == w.next
  }

  lemma EntersOrStays(w: World, step: Step, id: Hash)
    requires SnapshotInv(w) && id in Apply(w, step).flights
    ensures Enters(w, step, id, Apply(w, step).flights[id]) || (id in w.flights && w.flights[id] == Apply(w, step).flights[id])
  {
    if !step.Advance? {
      StartFits(w, step, id);
    } else if step.flight in w.flights && id != step.flight {
      AdvanceOthers(w, step.flight, step.answer, id);
    }
    hide Apply, SnapshotInv;
  }

  lemma {:induction false} FlightOrigin(w: World, run: seq<Step>, n: nat, id: Hash) returns (k: nat)
    requires w.flights == map[] && SnapshotInv(w) && n <= |run| && id in At(w, run, n).flights
    ensures k < n && Enters(At(w, run, k), run[k], id, At(w, run, n).flights[id])
  {
    hide Apply, SnapshotInv, Enters;
    assert n > 0;
    RunKeepsSnapshots(w, run, n - 1);
    EntersOrStays(At(w, run, n - 1), run[n - 1], id);
    if Enters(At(w, run, n - 1), run[n - 1], id, At(w, run, n).flights[id]) {
      k := n - 1;
    } else {
      k := FlightOrigin(w, run, n - 1, id);
    }
  }

  // ---------------------------------------------------------------- what is said

  predicate LiveGrant(w: World, g: GrantKey) {
    g in w.db.grants && w.db.grants[g].revokedAt.None?
  }

  predicate Declares(server: Server, s: string) {
    exists d :: d in server.scopes && d.name == s
  }

  /** Some scope of that name is short-lived. */
  predicate MarksShortLived(server: Server, s: string) {
    exists d :: d in server.scopes && d.name == s && d.shortLived
  }

  /** The scope that look-ups find under that name is short-lived. */
  predicate FirstIsShortLived(scopes: seq<Scope>, s: string) {
    exists i :: 0 <= i < |scopes| && FirstOfName(scopes, i, s) && scopes[i].shortLived
  }

  lemma ShortLivedIsFirst(scopes: seq<Scope>, s: string)
    ensures FirstIsShortLived(scopes, s) <==> FindScope(scopes, s).Some? && FindScope(scopes, s).value.shortLived
  {
    LookupFindsFirst(scopes, s);
    forall i: nat, j: nat | FirstOfName(scopes, i, s) && FirstOfName(scopes, j, s) ensures i == j { OneFirst(scopes, i, j, s); }
    hide FindScope, FirstOfName;
  }

  /** The user is in a listed group of every scope of that name that lists any. */
  predicate Admits(server: Server, s: string, groups: set<string>) {
    forall d :: d in server.scopes && d.name == s && d.requireGroups.Some? && d.requireGroups.value != [] ==>
      exists g :: g in d.requireGroups.value && g in groups
  }

  /** The access token minted for credential scopes `scopes`: those declared, the claims consented
      to that are released and present, and its lifetime. */
  ghost predicate Says(m: Minted, reg: Registry, resource: string, scopes: seq<string>, consented: seq<string>, present: set<string>) {
    && resource in reg
    && var server := reg[resource];
    && m.server == server
    && (forall s :: s in m.scopes <==> s in scopes && s != "offline_access" && Declares(server, s))
    && (forall c :: c in m.claims <==> c in server.releaseClaims && c in consented && c in present)
    && m.expiresIn == (if exists s :: s in m.scopes && FirstIsShortLived(server.scopes, s) then 300 else 900)
  }

  /** What a refresh token issued for `scopes` carries. */
  ghost predicate CarriesOn(kept: seq<string>, reg: Registry, resource: string, scopes: seq<string>) {
    forall s :: s in kept <==>
      s in scopes && (resource in reg ==> !MarksShortLived(reg[resource], s) && (s == "offline_access" || Declares(reg[resource], s)))
  }

  /** What is left of `scopes` at a refresh, for a user in `groups`. */
  ghost predicate StillKept(kept: seq<string>, reg: Registry, resource: string, scopes: seq<string>, groups: set<string>) {
    forall s :: s in kept <==>
      && s in scopes
      && (resource in reg ==>
            && !MarksShortLived(reg[resource], s) && (s == "offline_access" || Declares(reg[resource], s))
            && Admits(reg[resource], s, groups))
  }

  /** The new refresh token `h` of a response, drawn in `w`, starts a chain of 30 days. */
  ghost predicate NewChain(w: World, w': World, x: Issued, h: Hash, scopes: seq<string>) {
    && h == w.next && h in w'.db.tokens
    && var t := w'.db.tokens[h];
    && t.user == x.user && t.client == x.client && t.resource == x.resource && t.grant == GrantKey(x.user, x.client, x.resource)
    && t.expiresAt == w.now + 30 * 24 * 60 * 60 * 1000 && t.rotatedTo.None? && t.revokedAt.None?
    && CarriesOn(t.scopes, w.reg, x.resource, scopes)
  }

  lemma MintSays(reg: Registry, resource: string, scopes: seq<string>, consented: seq<string>, present: set<string>)
    requires resource in reg
    ensures Says(Mint(reg, resource, AccessTokenScopes(scopes), consented, present).value, reg, resource, scopes, consented, present)
  {
    forall s ensures ShortLivedIn(reg[resource], s) == FirstIsShortLived(reg[resource].scopes, s) { ShortLivedIsFirst(reg[resource].scopes, s); }
    hide ShortLivedIn, FirstIsShortLived;
  }

  lemma RefreshableCarriesOn(reg: Registry, resource: string, scopes: seq<string>)
    ensures CarriesOn(RefreshableScopes(reg, resource, scopes), reg, resource, scopes)
  {
  }

  lemma PermittedIsKept(reg: Registry, resource: string, scopes: seq<string>, groups: set<string>)
    ensures StillKept(PermittedScopes(reg, resource, RefreshableScopes(reg, resource, scopes), groups), reg, resource, scopes, groups)
  {
    hide PermittedScopes, RefreshableScopes;
    if resource in reg {
      forall s ensures s in PermittedScopes(reg, resource, RefreshableScopes(reg, resource, scopes), groups) <==>
          s in scopes && !MarksShortLived(reg[resource], s) && (s == "offline_access" || Declares(reg[resource], s)) && Admits(reg[resource], s, groups)
      {
        assert MarksShortLived(reg[resource], s) <==> s in ShortLivedNames(reg[resource].scopes);
        assert Declares(reg[resource], s) <==> s in ScopeNames(reg[resource].scopes);
      }
    }
  }

  predicate Moves(step: Step, id: Hash) {
    step.Advance? && step.flight == id && step.answer.ok
  }

  // ---------------------------------------------------------------- code exchanges

  /** A request presents an unexpired, unconsumed code with the client, redirect URI, verifier and
      resource it stands for. */
  predicate PresentsCode(w: World, step: Step, code: Hash) {
    && step.Exchange? && step.request.code == code && code in w.db.codes
    && var r, e := step.request, w.db.codes[code];
    && w.now <= e.expiresAt && e.consumedAt.None?
    && r.client == e.client && r.redirectUri == e.redirectUri && r.verifierOk && r.verifier == Some(e.challenge)
    && (r.resource.Some? ==> r.resource.value == e.resource)
  }

  /** The response takes the code, still unconsumed, stems from the code's approval, and hands out what its row says. */
  ghost predicate TakesCode(w: World, w': World, x: Issued, code: Hash, e: AuthCode) {
    && x.credential == FromCode(code) && x.user == e.user && x.client == e.client && x.resource == e.resource && x.via == e.via
    && code in w.db.codes && w.db.codes[code].consumedAt.None?
    && code in w'.db.codes && w'.db.codes[code].consumedAt == Some(w.now)
    && x.scopeField == e.scopes
    && (x.refresh.Some? <==> "offline_access" in e.scopes)
    && (x.refresh.Some? ==> NewChain(w, w', x, x.refresh.value, e.scopes))
  }

  lemma CodeClaimResponds(w: World, id: Hash, a: Answer)
    requires id in w.flights && w.flights[id].CodeClaim?
    requires var e := w.flights[id].codeEntry; e.grant == GrantKey(e.user, e.client, e.resource)
    ensures var f, w' := w.flights[id], Apply(w, Advance(id, a));
      |w'.hist.issued| > |w.hist.issued| ==>
        var x := w'.hist.issued[|w.hist.issued|];
        a.ok && TakesCode(w, w', x, f.code, f.codeEntry) && x.token == f.minted
  {
    var e := w.flights[id].codeEntry;
    RefreshableCarriesOn(w.reg, e.resource, e.scopes);
    hide Mint, RefreshableScopes, CarriesOn, ClaimDevice, RotateToken, RevokeTokens;
  }

  lemma EntersCodeClaim(w: World, step: Step, id: Hash, f: Flight)
    requires Enters(w, step, id, f) && f.CodeClaim?
    ensures id in w.flights && w.flights[id].CodeUser? && w.flights[id].code == f.code && w.flights[id].codeEntry == f.codeEntry
    ensures Moves(step, id) && Says(f.minted, w.reg, f.codeEntry.resource, f.codeEntry.scopes, w.flights[id].consented, step.answer.present)
  {
    if id in w.flights {
      if IsConsentFlight(w.flights[id]) {
        ConsentEntersNothing(w, id, step.answer);
      } else if w.flights[id].CodeUser? {
        var u := w.flights[id];
        if u.codeEntry.resource in w.reg { MintSays(w.reg, u.codeEntry.resource, u.codeEntry.scopes, u.consented, step.answer.present); }
      }
      hide Mint, ClaimCode, ClaimDevice, RotateToken, RevokeTokens, Says;
    } else {
      ArrivalEnters(w, step, id);
    }
  }

  /** Consent requests stay consent requests. */
  lemma ConsentEntersNothing(w: World, id: Hash, a: Answer)
    requires id in w.flights && IsConsentFlight(w.flights[id]) && id in Apply(w, Advance(id, a)).flights
    ensures IsConsentFlight(Apply(w, Advance(id, a)).flights[id])
  {
  }

  /** The phases a request can arrive in. */
  lemma ArrivalEnters(w: World, step: Step, id: Hash)
    requires !step.Advance? && id in Apply(w, step).flights && id !in w.flights
    ensures var f := Apply(w, step).flights[id];
      f.CodeAuth? || f.RefreshAuth? || f.DeviceAuth? || f.RevokeAuth? || f.DeleteCode? || f.DeleteDevice? || f.PollDevice? || IsConsentFlight(f)
  {
  }

  lemma EntersCodeUser(w: World, step: Step, id: Hash, f: Flight)
    requires Enters(w, step, id, f) && f.CodeUser?
    ensures id in w.flights && w.flights[id] == CodeGrant(f.code, f.codeEntry) && step.Advance? && step.flight == id
    ensures LiveGrant(w, f.codeEntry.grant) && f.consented == w.db.grants[f.codeEntry.grant].releasedClaims
  {
    if id in w.flights {
      if IsConsentFlight(w.flights[id]) { ConsentEntersNothing(w, id, step.answer); }
      hide Mint, ClaimCode, ClaimDevice, RotateToken, RevokeTokens;
    } else {
      ArrivalEnters(w, step, id);
    }
  }

  lemma EntersCodeGrant(w: World, step: Step, id: Hash, f: Flight)
    requires Enters(w, step, id, f) && f.CodeGrant?
    ensures id in w.flights && w.flights[id] == CodeAuth(f.code, f.codeEntry) && Moves(step, id) && f.codeEntry.consumedAt.None?
  {
    if id in w.flights {
      if IsConsentFlight(w.flights[id]) { ConsentEntersNothing(w, id, step.answer); }
      hide Mint, ClaimCode, ClaimDevice, RotateToken, RevokeTokens;
    } else {
      ArrivalEnters(w, step, id);
    }
  }

  lemma EntersCodeAuth(w: World, step: Step, id: Hash, f: Flight)
    requires Enters(w, step, id, f) && f.CodeAuth? && f.codeEntry.consumedAt.None?
    ensures id == w.next && PresentsCode(w, step, f.code) && f.codeEntry == w.db.codes[f.code]
  {
    if id in w.flights {
      if IsConsentFlight(w.flights[id]) { ConsentEntersNothing(w, id, step.answer); }
      hide Mint, ClaimCode, ClaimDevice, RotateToken, RevokeTokens;
    }
  }

  /** The way of a code response: arrival at `i`, client authentication at `a`, grant check at `g`,
      user check and minting at `u`, the claiming transaction at `k`. */
  ghost predicate CodeEarned(w: World, run: seq<Step>, x: Issued, i: nat, a: nat, g: nat, u: nat, k: nat)
    requires i < a < g < u < k < |run|
  {
    && x.credential.FromCode? && PresentsCode(At(w, run, i), run[i], x.credential.code)
    && var id, e := At(w, run, i).next, At(w, run, i).db.codes[x.credential.code];
    && Moves(run[a], id) && run[g].Advance? && run[g].flight == id && Moves(run[u], id) && Moves(run[k], id)
    && LiveGrant(At(w, run, g), GrantKey(x.user, x.client, x.resource))
    && Says(x.token, At(w, run, u).reg, x.resource, e.scopes, At(w, run, g).db.grants[GrantKey(x.user, x.client, x.resource)].releasedClaims, run[u].answer.present)
    && TakesCode(At(w, run, k), At(w, run, k + 1), x, x.credential.code, e)
  }

  /** Every response to a code exchange is earned: at each step the state of that moment passed the
      check made there, and the response says what they determine. */
  lemma EveryCodeResponseIsEarned(now: Time, reg: Registry, run: seq<Step>, n: nat, x: Issued)
      returns (i: nat, a: nat, g: nat, u: nat, k: nat)
    requires n <= |run| && x in At(Init(now, reg), run, n).hist.issued && x.credential.FromCode?
    ensures i < a < g < u < k < n && RespondsAt(Init(now, reg), run, k, x) && CodeEarned(Init(now, reg), run, x, i, a, g, u, k)
  {
    var w := Init(now, reg);
    EmptyIsSound(now, reg);
    assert w.flights == map[] && w.hist.issued == [];
    hide Init, Apply, SnapshotInv, TraceInv, Says, TakesCode, PresentsCode, Enters;
    k := ResponseStep(w, run, n, x);
    RunKeepsTrace(w, run, k);
    var f := CodeResponder(At(w, run, k), run[k], x);
    var id := run[k].flight;
    u := FlightOrigin(w, run, k, id);
    EntersCodeClaim(At(w, run, u), run[u], id, f);
    g := FlightOrigin(w, run, u, id);
    EntersCodeUser(At(w, run, g), run[g], id, At(w, run, u).flights[id]);
    a := FlightOrigin(w, run, g, id);
    EntersCodeGrant(At(w, run, a), run[a], id, At(w, run, g).flights[id]);
    i := FlightOrigin(w, run, a, id);
    EntersCodeAuth(At(w, run, i), run[i], id, At(w, run, a).flights[id]);
  }

  lemma CodeResponder(w: World, step: Step, x: Issued) returns (f: Flight)
    requires TraceInv(w) && x.credential.FromCode? && Apply(w, step).hist.issued == w.hist.issued + [x]
    ensures step.Advance? && step.flight in w.flights && f == w.flights[step.flight] && f.CodeClaim?
    ensures Moves(step, step.flight) && TakesCode(w, Apply(w, step), x, f.code, f.codeEntry) && x.token == f.minted && f.code == x.credential.code
    ensures f.codeEntry.grant == GrantKey(x.user, x.client, x.resource)
  {
    var _ := ResponseOfClaim(w, step, x);
    f := w.flights[step.flight];
    assert FlightOk(w.hist.facts, f);
    assert Apply(w, step).hist.issued[|w.hist.issued|] == x;
    CodeClaimResponds(w, step.flight, step.answer);
    hide Apply;
  }

  // ---------------------------------------------------------------- refreshes

  /** A request presents a token with the client it was issued to. */
  predicate PresentsToken(w: World, step: Step, h: Hash) {
    && step.Refresh? && step.token == h && h in w.db.tokens && step.client == w.db.tokens[h].client
  }

  /** The token as its row was read is neither rotated nor revoked, and has not expired when the
      client has authenticated; its resource is the one asked for and is registered. */
  predicate PassesTokenChecks(w: World, arrival: Step, e: RefreshToken) {
    && e.rotatedTo.None? && e.revokedAt.None? && w.now <= e.expiresAt && e.resource in w.reg
    && arrival.Refresh? && (arrival.resourceParam.Some? ==> arrival.resourceParam.value == e.resource)
  }

  /** The response rotates the token, still unclaimed, into a successor of the same chain. */
  ghost predicate TakesToken(w: World, w': World, x: Issued, h: Hash, e: RefreshToken) {
    && x.credential == FromRefresh(h) && x.user == e.user && x.client == e.client && x.resource == e.resource && x.via == e.via
    && h in w.db.tokens && w.db.tokens[h].rotatedTo.None? && w.db.tokens[h].revokedAt.None?
    && x.refresh == Some(w.next)
    && h in w'.db.tokens && w'.db.tokens[h].rotatedTo == Some(w.next)
    && w.next in w'.db.tokens
    && var t := w'.db.tokens[w.next];
    && t.user == e.user && t.client == e.client && t.resource == e.resource && t.grant == e.grant && t.expiresAt == e.expiresAt
    && t.scopes == x.scopeField && t.rotatedTo.None? && t.revokedAt.None?
  }

  lemma RotateResponds(w: World, id: Hash, a: Answer)
    requires SnapshotInv(w) && id in w.flights && w.flights[id].RefreshRotate?
    ensures var f, w' := w.flights[id], Apply(w, Advance(id, a));
      |w'.hist.issued| > |w.hist.issued| ==>
        var x := w'.hist.issued[|w.hist.issued|];
        a.ok && TakesToken(w, w', x, f.token, f.entry) && x.token == f.minted && x.scopeField == f.scopes
  {
    assert Fits(TableOf(w), w.flights[id]);
    hide Mint, ClaimCode, ClaimDevice, RevokeTokens, SnapshotInv;
  }

  lemma EntersRotate(w: World, step: Step, id: Hash, f: Flight)
    requires Enters(w, step, id, f) && f.RefreshRotate?
    ensures id in w.flights && w.flights[id].RefreshScopes? && w.flights[id].token == f.token && w.flights[id].entry == f.entry && w.flights[id].kept == f.scopes
    ensures step.Advance? && Says(f.minted, w.reg, f.entry.resource, f.scopes, w.flights[id].consented, step.answer.present)
  {
    if id in w.flights {
      if IsConsentFlight(w.flights[id]) {
        ConsentEntersNothing(w, id, step.answer);
      } else if w.flights[id].RefreshScopes? {
        var u := w.flights[id];
        if u.entry.resource in w.reg { MintSays(w.reg, u.entry.resource, u.kept, u.consented, step.answer.present); }
      }
      hide Mint, ClaimCode, ClaimDevice, RotateToken, RevokeTokens, Says;
    } else {
      ArrivalEnters(w, step, id);
    }
  }

  lemma EntersRefreshScopes(w: World, step: Step, id: Hash, f: Flight)
    requires Enters(w, step, id, f) && f.RefreshScopes?
    ensures id in w.flights && w.flights[id] == RefreshUser(f.token, f.entry, f.consented) && Moves(step, id)
    ensures StillKept(f.kept, w.reg, f.entry.resource, f.entry.scopes, step.answer.groups)
  {
    if id in w.flights {
      if IsConsentFlight(w.flights[id]) {
        ConsentEntersNothing(w, id, step.answer);
      } else if w.flights[id].RefreshUser? {
        PermittedIsKept(w.reg, w.flights[id].entry.resource, w.flights[id].entry.scopes, step.answer.groups);
      }
      hide Mint, ClaimCode, ClaimDevice, RotateToken, RevokeTokens, PermittedScopes, RefreshableScopes, StillKept;
    } else {
      ArrivalEnters(w, step, id);
    }
  }

  lemma EntersRefreshUser(w: World, step: Step, id: Hash, f: Flight)
    requires Enters(w, step, id, f) && f.RefreshUser?
    ensures id in w.flights && w.flights[id] == RefreshGrant(f.token, f.entry) && step.Advance? && step.flight == id
    ensures LiveGrant(w, f.entry.grant) && f.consented == w.db.grants[f.entry.grant].releasedClaims
  {
    if id in w.flights {
      if IsConsentFlight(w.flights[id]) { ConsentEntersNothing(w, id, step.answer); }
      hide Mint, ClaimCode, ClaimDevice, RotateToken, RevokeTokens;
    } else {
      ArrivalEnters(w, step, id);
    }
  }

  lemma EntersRefreshGrant(w: World, step: Step, id: Hash, f: Flight)
    requires Enters(w, step, id, f) && f.RefreshGrant?
    ensures id in w.flights && w.flights[id].RefreshAuth? && w.flights[id].token == f.token && w.flights[id].entry == f.entry && Moves(step, id)
    ensures forall arrival: Step :: arrival.Refresh? && arrival.resourceParam == w.flights[id].askedResource ==> PassesTokenChecks(w, arrival, f.entry)
  {
    if id in w.flights {
      if IsConsentFlight(w.flights[id]) { ConsentEntersNothing(w, id, step.answer); }
      hide Mint, ClaimCode, ClaimDevice, RotateToken, RevokeTokens;
    } else {
      ArrivalEnters(w, step, id);
    }
  }

  lemma EntersRefreshAuth(w: World, step: Step, id: Hash, f: Flight)
    requires Enters(w, step, id, f) && f.RefreshAuth?
    ensures id == w.next && PresentsToken(w, step, f.token) && f.entry == w.db.tokens[f.token] && step.resourceParam == f.askedResource
  {
    if id in w.flights {
      if IsConsentFlight(w.flights[id]) { ConsentEntersNothing(w, id, step.answer); }
      hide Mint, ClaimCode, ClaimDevice, RotateToken, RevokeTokens;
    }
  }

  /** The way of a refresh: arrival at `i`, client authentication and the row's checks at `a`, grant
      check at `g`, user check and scopes at `u`, minting at `m`, the rotation at `k`. */
  ghost predicate RefreshEarned(w: World, run: seq<Step>, x: Issued, i: nat, a: nat, g: nat, u: nat, m: nat, k: nat)
    requires i < a < g < u < m < k < |run|
  {
    && x.credential.FromRefresh? && PresentsToken(At(w, run, i), run[i], x.credential.token)
    && var id, e := At(w, run, i).next, At(w, run, i).db.tokens[x.credential.token];
    && Moves(run[a], id) && PassesTokenChecks(At(w, run, a), run[i], e)
    && run[g].Advance? && run[g].flight == id && LiveGrant(At(w, run, g), GrantKey(x.user, x.client, x.resource))
    && Moves(run[u], id) && StillKept(x.scopeField, At(w, run, u).reg, x.resource, e.scopes, run[u].answer.groups)
    && run[m].Advance? && run[m].flight == id
    && Says(x.token, At(w, run, m).reg, x.resource, x.scopeField, At(w, run, g).db.grants[GrantKey(x.user, x.client, x.resource)].releasedClaims, run[m].answer.present)
    && Moves(run[k], id) && TakesToken(At(w, run, k), At(w, run, k + 1), x, x.credential.token, e)
  }

  /** Every response to a refresh is earned likewise. Its scopes are those of the redeemed row that
      the server still declares and does not mark short-lived, and whose groups the user is in, by
      the registry and the groups of the moment the user was checked. */
  lemma EveryRefreshIsEarned(now: Time, reg: Registry, run: seq<Step>, n: nat, x: Issued)
      returns (i: nat, a: nat, g: nat, u: nat, m: nat, k: nat)
    requires n <= |run| && x in At(Init(now, reg), run, n).hist.issued && x.credential.FromRefresh?
    ensures i < a < g < u < m < k < n && RespondsAt(Init(now, reg), run, k, x) && RefreshEarned(Init(now, reg), run, x, i, a, g, u, m, k)
  {
    var w := Init(now, reg);
    EmptyIsSound(now, reg);
    assert w.flights == map[] && w.hist.issued == [];
    hide Init, Apply, SnapshotInv, TraceInv, Says, StillKept, TakesToken, PresentsToken, PassesTokenChecks, Enters;
    k := ResponseStep(w, run, n, x);
    RunKeepsTrace(w, run, k);
    RunKeepsSnapshots(w, run, k);
    var f := RefreshResponder(At(w, run, k), run[k], x);
    var id := run[k].flight;
    m := FlightOrigin(w, run, k, id);
    EntersRotate(At(w, run, m), run[m], id, f);
    u := FlightOrigin(w, run, m, id);
    EntersRefreshScopes(At(w, run, u), run[u], id, At(w, run, m).flights[id]);
    g := FlightOrigin(w, run, u, id);
    EntersRefreshUser(At(w, run, g), run[g], id, At(w, run, u).flights[id]);
    a := FlightOrigin(w, run, g, id);
    EntersRefreshGrant(At(w, run, a), run[a], id, At(w, run, g).flights[id]);
    i := FlightOrigin(w, run, a, id);
    EntersRefreshAuth(At(w, run, i), run[i], id, At(w, run, a).flights[id]);
  }

  /** Which flight gives a response. */
  lemma WhoResponds(w: World, id: Hash, a: Answer)
    requires id in w.flights && !IsConsentFlight(w.flights[id])
    ensures |Apply(w, Advance(id, a)).hist.issued| > |w.hist.issued| ==>
      var x := Apply(w, Advance(id, a)).hist.issued[|w.hist.issued|];
      && (x.credential.FromRefresh? ==> w.flights[id].RefreshRotate?)
      && (x.credential.FromDevice? ==> w.flights[id].DeviceClaim?)
  {
    hide Mint, NewToken, RotateToken, RevokeTokens, PermittedScopes, RefreshableScopes;
  }

  lemma RefreshResponder(w: World, step: Step, x: Issued) returns (f: Flight)
    requires TraceInv(w) && SnapshotInv(w) && x.credential.FromRefresh? && Apply(w, step).hist.issued == w.hist.issued + [x]
    ensures step.Advance? && step.flight in w.flights && f == w.flights[step.flight] && f.RefreshRotate?
    ensures Moves(step, step.flight) && TakesToken(w, Apply(w, step), x, f.token, f.entry) && f.token == x.credential.token
    ensures x.token == f.minted && x.scopeField == f.scopes && f.entry.grant == GrantKey(x.user, x.client, x.resource)
  {
    RespondsByAdvance(w, step);
    f := w.flights[step.flight];
    assert FlightOk(w.hist.facts, f);
    assert Apply(w, step).hist.issued[|w.hist.issued|] == x;
    WhoResponds(w, step.flight, step.answer);
    RotateResponds(w, step.flight, step.answer);
    hide Apply, SnapshotInv;
  }

  // ---------------------------------------------------------------- device codes

  /** A poll presents an approved device code with its client and resource, in time. */
  predicate PresentsDevice(w: World, step: Step, device: Hash) {
    && step.Poll? && step.device == device && device in w.db.devices
    && var e := w.db.devices[device];
    && step.client == e.client && w.now <= e.expiresAt && e.status == Approved && e.user.Some?
    && (step.resourceParam.Some? ==> step.resourceParam.value == e.resource)
  }

  /** The response takes the device code, still approved and under a live grant. */
  ghost predicate TakesDevice(w: World, w': World, x: Issued, device: Hash, e: DeviceCode) {
    && x.credential == FromDevice(device) && e.user == Some(x.user) && x.client == e.client && x.resource == e.resource && x.via == e.via
    && device in w.db.devices && w.db.devices[device].status == Approved
    && device in w'.db.devices && w'.db.devices[device] == w.db.devices[device].(status := Consumed)
    && LiveGrant(w, GrantKey(x.user, x.client, x.resource))
    && x.scopeField == e.scopes
    && (x.refresh.Some? <==> "offline_access" in e.scopes)
    && (x.refresh.Some? ==> NewChain(w, w', x, x.refresh.value, e.scopes))
  }

  lemma DeviceClaimResponds(w: World, id: Hash, a: Answer)
    requires id in w.flights && w.flights[id].DeviceClaim? && w.flights[id].deviceEntry.user == Some(w.flights[id].user)
    ensures var f, w' := w.flights[id], Apply(w, Advance(id, a));
      |w'.hist.issued| > |w.hist.issued| ==>
        var x := w'.hist.issued[|w.hist.issued|];
        a.ok && TakesDevice(w, w', x, f.device, f.deviceEntry) && x.token == f.minted
  {
    var e := w.flights[id].deviceEntry;
    RefreshableCarriesOn(w.reg, e.resource, e.scopes);
    hide Mint, RefreshableScopes, CarriesOn, ClaimCode, RotateToken, RevokeTokens;
  }

  /** The claims a device's grant has, or none without a grant. */
  function DeviceClaims(w: World, user: string, e: DeviceCode): seq<string> {
    var key := GrantKey(user, e.client, e.resource);
    if key in w.db.grants then w.db.grants[key].releasedClaims else []
  }

  lemma EntersDeviceClaim(w: World, step: Step, id: Hash, f: Flight)
    requires Enters(w, step, id, f) && f.DeviceClaim?
    ensures id in w.flights && w.flights[id] == DeviceMint(f.device, f.deviceEntry, f.user) && step.Advance? && step.flight == id
    ensures Says(f.minted, w.reg, f.deviceEntry.resource, f.deviceEntry.scopes, DeviceClaims(w, f.user, f.deviceEntry), step.answer.present)
  {
    if id in w.flights {
      if IsConsentFlight(w.flights[id]) {
        ConsentEntersNothing(w, id, step.answer);
      } else if w.flights[id].DeviceMint? {
        var e := w.flights[id].deviceEntry;
        if e.resource in w.reg { MintSays(w.reg, e.resource, e.scopes, DeviceClaims(w, w.flights[id].user, e), step.answer.present); }
      }
      hide Mint, ClaimCode, ClaimDevice, RotateToken, RevokeTokens, Says;
    } else {
      ArrivalEnters(w, step, id);
    }
  }

  lemma EntersDevicePhase(w: World, step: Step, id: Hash, f: Flight)
    requires Enters(w, step, id, f) && (f.DeviceMint? || f.DeviceUser? || f.DeviceAuth?)
    ensures f.DeviceMint? ==> id in w.flights && w.flights[id] == DeviceUser(f.device, f.deviceEntry, f.user) && Moves(step, id)
    ensures f.DeviceUser? ==> id in w.flights && w.flights[id] == DeviceAuth(f.device, f.deviceEntry, f.user) && Moves(step, id)
    ensures f.DeviceAuth? ==> id == w.next && PresentsDevice(w, step, f.device) && f.deviceEntry == w.db.devices[f.device] && f.deviceEntry.user == Some(f.user)
  {
    if id in w.flights {
      if IsConsentFlight(w.flights[id]) { ConsentEntersNothing(w, id, step.answer); }
      hide Mint, ClaimCode, ClaimDevice, RotateToken, RevokeTokens;
    }
  }

  /** The way of a device response: the poll at `i`, client authentication at `a`, user check at `u`,
      minting at `m`, the claiming transaction at `k`. */
  ghost predicate DeviceEarned(w: World, run: seq<Step>, x: Issued, i: nat, a: nat, u: nat, m: nat, k: nat)
    requires i < a < u < m < k < |run|
  {
    && x.credential.FromDevice? && PresentsDevice(At(w, run, i), run[i], x.credential.device)
    && var id, e := At(w, run, i).next, At(w, run, i).db.devices[x.credential.device];
    && Moves(run[a], id) && Moves(run[u], id)
    && run[m].Advance? && run[m].flight == id
    && Says(x.token, At(w, run, m).reg, x.resource, e.scopes, DeviceClaims(At(w, run, m), x.user, e), run[m].answer.present)
    && Moves(run[k], id) && TakesDevice(At(w, run, k), At(w, run, k + 1), x, x.credential.device, e)
  }

  /** Every response to a poll is earned likewise. */
  lemma EveryDeviceResponseIsEarned(now: Time, reg: Registry, run: seq<Step>, n: nat, x: Issued)
      returns (i: nat, a: nat, u: nat, m: nat, k: nat)
    requires n <= |run| && x in At(Init(now, reg), run, n).hist.issued && x.credential.FromDevice?
    ensures i < a < u < m < k < n && RespondsAt(Init(now, reg), run, k, x) && DeviceEarned(Init(now, reg), run, x, i, a, u, m, k)
  {
    var w := Init(now, reg);
    EmptyIsSound(now, reg);
    assert w.flights == map[] && w.hist.issued == [];
    hide Init, Apply, SnapshotInv, TraceInv, Says, TakesDevice, PresentsDevice, Enters, DeviceClaims;
    k := ResponseStep(w, run, n, x);
    RunKeepsTrace(w, run, k);
    var f := DeviceResponder(At(w, run, k), run[k], x);
    var id := run[k].flight;
    m := FlightOrigin(w, run, k, id);
    EntersDeviceClaim(At(w, run, m), run[m], id, f);
    u := FlightOrigin(w, run, m, id);
    EntersDevicePhase(At(w, run, u), run[u], id, At(w, run, m).flights[id]);
    a := FlightOrigin(w, run, u, id);
    EntersDevicePhase(At(w, run, a), run[a], id, At(w, run, u).flights[id]);
    i := FlightOrigin(w, run, a, id);
    EntersDevicePhase(At(w, run, i), run[i], id, At(w, run, a).flights[id]);
  }

  lemma DeviceResponder(w: World, step: Step, x: Issued) returns (f: Flight)
    requires TraceInv(w) && x.credential.FromDevice? && Apply(w, step).hist.issued == w.hist.issued + [x]
    ensures step.Advance? && step.flight in w.flights && f == w.flights[step.flight] && f.DeviceClaim?
    ensures Moves(step, step.flight) && TakesDevice(w, Apply(w, step), x, f.device, f.deviceEntry) && x.token == f.minted && f.device == x.credential.device
    ensures f.user == x.user
  {
    RespondsByAdvance(w, step);
    f := w.flights[step.flight];
    assert FlightOk(w.hist.facts, f);
    assert Apply(w, step).hist.issued[|w.hist.issued|] == x;
    WhoResponds(w, step.flight, step.answer);
    DeviceClaimResponds(w, step.flight, step.answer);
    hide Apply;
  }

  // ---------------------------------------------------------------- whatever the credential

  /** The exchange presents the code redeemed, in time, and what its approved request asks for. */
  predicate Presents(w: World, r: TokenEndpoint.CodeRequest, x: Issued, a: Approval) {
    && x.credential == FromCode(r.code) && r.client == x.client && r.client == a.req.client && r.redirectUri == a.req.redirectUri
    && r.verifierOk && r.verifier == Some(a.req.challenge)
    && r.code in w.db.codes && w.now <= w.db.codes[r.code].expiresAt
  }

  /** Two steps of flight `id`, the first of which its client's authentication allowed. */
  predicate AuthenticatedThenAnswered(id: Hash, first: Step, second: Step) {
    first.Advance? && second.Advance? && first.flight == id && second.flight == id && first.answer.ok
  }

  /** Whoever redeems a code presented it before it expired and, in the request that redeems it, the
      client id and redirect URI of the approved authorization request and the verifier of its
      challenge, and authenticated as that client in between. */
  lemma EveryCodeResponseWasProved(now: Time, reg: Registry, run: seq<Step>, n: nat, x: Issued)
      returns (a: Approval, i: nat, j: nat, k: nat)
    requires n <= |run| && x in At(Init(now, reg), run, n).hist.issued && x.credential.FromCode?
    ensures x.via == Some(a) && a in At(Init(now, reg), run, n).hist.facts.approved
    ensures i < j < k < n && RespondsAt(Init(now, reg), run, k, x)
    ensures run[i].Exchange? && Presents(At(Init(now, reg), run, i), run[i].request, x, a)
    ensures AuthenticatedThenAnswered(At(Init(now, reg), run, i).next, run[j], run[k])
  {
    var w := Init(now, reg);
    var g, u;
    i, j, g, u, k := EveryCodeResponseIsEarned(now, reg, run, n, x);
    EmptyIsSound(now, reg);
    RunKeepsTrace(w, run, i);
    RunKeepsTrace(w, run, n);
    assert CodeOk(At(w, run, i).hist.facts, At(w, run, i).db.codes[x.credential.code]);
    assert IssuedOk(At(w, run, n).hist.facts, x);
    a := x.via.value;
    hide At, TraceInv, Says, NewChain;
  }

  /** The access token was minted from this registry's entry. */
  predicate DeclaredIn(reg: Registry, x: Issued) {
    x.resource in reg && reg[x.resource] == x.token.server
  }

  /** At the refresh `x`, the user was, by the answer to this step, in a group of every scope kept
      that lists any. */
  ghost predicate InItsGroups(w: World, step: Step, x: Issued) {
    step.Advance? && (x.resource in w.reg ==> forall s :: s in x.scopeField ==> Admits(w.reg[x.resource], s, step.answer.groups))
  }

  /** Every access token handed out stems from one approved request of the same user, client
      and resource, and was minted from the registry entry of a moment `k` before its
      response at `j`. It has only scopes that request asked for and the entry declares, only
      claims the entry releases and the consent page of some approved request for the same
      three listed; it lives 300 seconds exactly when one of its scopes is short-lived there,
      else 900; and at a refresh the user's groups passed every gate at step `u`. */
  lemma EveryAccessTokenTraces(now: Time, reg: Registry, run: seq<Step>, n: nat, x: Issued) returns (a: Approval, u: nat, k: nat, j: nat)
    requires n <= |run| && x in At(Init(now, reg), run, n).hist.issued
    ensures x.via == Some(a) && a in At(Init(now, reg), run, n).hist.facts.approved
    ensures a.req.subject == Some(x.user) && a.req.client == x.client && a.req.resource == x.resource
    ensures u <= k < j < n && RespondsAt(Init(now, reg), run, j, x) && DeclaredIn(At(Init(now, reg), run, k).reg, x)
    ensures forall s :: s in x.token.scopes ==> s in a.req.scopes && s in x.scopeField && Declares(x.token.server, s)
    ensures forall c :: c in x.token.claims ==>
      c in x.token.server.releaseClaims && ShownAndApproved(At(Init(now, reg), run, n).hist.facts, GrantKey(x.user, x.client, x.resource), c)
    ensures x.token.expiresIn == if exists s :: s in x.token.scopes && FirstIsShortLived(x.token.server.scopes, s) then 300 else 900
    ensures x.credential.FromRefresh? ==> InItsGroups(At(Init(now, reg), run, u), run[u], x)
  {
    EmptyIsSound(now, reg);
    RunKeepsTrace(Init(now, reg), run, n);
    assert IssuedOk(At(Init(now, reg), run, n).hist.facts, x);
    a := x.via.value;
    hide At, TraceInv, NewChain, Admits, Declares, FirstIsShortLived;
    match x.credential
    case FromCode(_) =>
      var i, b, g;
      i, b, g, k, j := EveryCodeResponseIsEarned(now, reg, run, n, x);
      u := k;
    case FromRefresh(_) =>
      var i, b, g;
      i, b, g, u, k, j := EveryRefreshIsEarned(now, reg, run, n, x);
    case FromDevice(_) =>
      var i, b;
      i, b, u, k, j := EveryDeviceResponseIsEarned(now, reg, run, n, x);
  }
}
