/** A token or revocation request that no other step interrupts: exactly when it succeeds, and
    what a refused one leaves behind. */
module ProtocolRequests {
  import opened Basics
  import opened ResourceRegistry
  import opened Tables
  import opened World
  import opened Protocol
  import opened ProtocolChains
  import opened ProtocolTrace
  import opened ProtocolTheorems
  import opened ProtocolResponses
  import TokenEndpoint
  import Consent

  /** The request of flight `id` goes on, with these answers from outside. */
  function Onward(w: World, id: Hash, answers: seq<Answer>): World
    decreases |answers|
  {
    if answers == [] then w else Onward(Apply(w, Advance(id, answers[0])), id, answers[1..])
  }

  /** A request is over, and nothing came of it. */
  function Over(w: World): World {
    w.(next := w.next + 1)
  }

  /** Names are drawn one after the other. */
  predicate Fresh(w: World) {
    w.next !in w.flights && w.next + 1 !in w.db.tokens
  }

  lemma {:induction false} NothingMore(w: World, id: Hash, answers: seq<Answer>)
    requires id !in w.flights
    decreases |answers|
    ensures Onward(w, id, answers) == w
  {
    if answers != [] { NothingMore(w, id, answers[1..]); }
  }

  /** The request that has just reached phase `f` in `w` goes on. */
  function From(w: World, f: Flight, answers: seq<Answer>): World {
    Onward(Spawn(w, f), w.next, answers)
  }

  function OneStep(w: World, f: Flight, a: Answer): World {
    Apply(Spawn(w, f), Advance(w.next, a))
  }

  lemma GoesOn(w: World, f: Flight, f': Flight, answers: seq<Answer>)
    requires answers != [] && OneStep(w, f, answers[0]) == Spawn(w, f')
    ensures From(w, f, answers) == From(w, f', answers[1..])
  {
    hide Apply;
  }

  lemma Ends(w: World, f: Flight, answers: seq<Answer>)
    requires answers != [] && w.next !in OneStep(w, f, answers[0]).flights
    ensures From(w, f, answers) == OneStep(w, f, answers[0])
  {
    hide Apply;
    NothingMore(OneStep(w, f, answers[0]), w.next, answers[1..]);
  }

  lemma SpawnDone(w: World, f: Flight)
    requires w.next !in w.flights
    ensures Done(Spawn(w, f), w.next) == Over(w)
    ensures forall f' :: Go(Spawn(w, f), w.next, f') == Spawn(w, f')
  {
  }

  /** Every live token of the grant is stamped, and nothing else changes. */
  ghost predicate FamilyRevoked(before: TokenTable, after: TokenTable, g: GrantKey, now: Time) {
    && after.Keys == before.Keys
    && forall h :: h in before ==>
         after[h] == if before[h].grant == g && before[h].revokedAt.None? then before[h].(revokedAt := Some(now)) else before[h]
  }

  /** The response `x` was given. */
  ghost predicate Answers(w: World, w': World, x: Issued) {
    w'.hist.issued == w.hist.issued + [x]
  }

  ghost predicate AnswersNothing(w: World, w': World) {
    w'.hist == w.hist
  }

  lemma RevokingStep(w: World, g: GrantKey, a: Answer)
    requires w.next !in w.flights
    ensures var w' := OneStep(w, Revoking(g), a);
      w' == Over(w).(db := w.db.(tokens := w'.db.tokens)) && FamilyRevoked(w.db.tokens, w'.db.tokens, g, w.now)
  {
    SpawnDone(w, Revoking(g));
    hide Mint, ClaimCode, ClaimDevice, RotateToken;
  }

  // ---------------------------------------------------------------- code exchange

  predicate Expired(w: World, r: TokenEndpoint.CodeRequest)
    requires r.code in w.db.codes
  {
    w.db.codes[r.code].expiresAt < w.now
  }

  predicate Mismatched(w: World, r: TokenEndpoint.CodeRequest)
    requires r.code in w.db.codes
  {
    r.client != w.db.codes[r.code].client || r.redirectUri != w.db.codes[r.code].redirectUri
  }

  predicate Verified(w: World, r: TokenEndpoint.CodeRequest)
    requires r.code in w.db.codes
  {
    r.verifierOk && r.verifier == Some(w.db.codes[r.code].challenge)
  }

  /** Client, user and transaction succeed in turn; the answer at the grant check is not asked. */
  predicate ExchangeOk(w: World, r: TokenEndpoint.CodeRequest, answers: seq<Answer>)
    requires |answers| == 4
  {
    && PresentsCode(w, Exchange(r), r.code)
    && LiveGrant(w, w.db.codes[r.code].grant) && w.db.codes[r.code].resource in w.reg
    && answers[0].ok && answers[2].ok && answers[3].ok
  }

  /** A consumed code, presented in time with all its proofs by a client that authenticates. */
  predicate IsReplay(w: World, r: TokenEndpoint.CodeRequest, answers: seq<Answer>)
    requires |answers| == 4
  {
    && r.code in w.db.codes && w.db.codes[r.code].consumedAt.Some?
    && !Expired(w, r) && !Mismatched(w, r) && Verified(w, r) && answers[0].ok
  }

  ghost predicate ExchangeComesTo(w: World, r: TokenEndpoint.CodeRequest, answers: seq<Answer>, w': World)
    requires |answers| == 4
  {
    if ExchangeOk(w, r, answers) then GrantedExchange(w, r, answers[2].present, w') else RefusedExchange(w, r, answers, w')
  }

  /** A refused exchange burns a code that is expired, or that was unused and came with a wrong
      client or redirect URI; a replay revokes the family; anything else changes nothing. */
  ghost predicate RefusedExchange(w: World, r: TokenEndpoint.CodeRequest, answers: seq<Answer>, w': World)
    requires |answers| == 4
  {
    && AnswersNothing(w, w') && w'.flights == w.flights
    && (if r.code in w.db.codes && (Expired(w, r) || (Mismatched(w, r) && w.db.codes[r.code].consumedAt.None?))
        then w'.db == w.db.(codes := w.db.codes - {r.code})
        else if IsReplay(w, r, answers)
        then w'.db == w.db.(tokens := w'.db.tokens) && FamilyRevoked(w.db.tokens, w'.db.tokens, w.db.codes[r.code].grant, w.now)
        else w'.db == w.db)
  }

  ghost predicate GrantedExchange(w: World, r: TokenEndpoint.CodeRequest, present: set<string>, w': World)
    requires r.code in w.db.codes && w.db.codes[r.code].grant in w.db.grants
  {
    var e := w.db.codes[r.code];
    && |w'.hist.issued| > |w.hist.issued|
    && var x := w'.hist.issued[|w.hist.issued|];
    && Answers(w, w', x) && w'.flights == w.flights
    && TakesCode(Over(w), w', x, r.code, e)
    && Says(x.token, w.reg, e.resource, e.scopes, w.db.grants[e.grant].releasedClaims, present)
    && w'.db.codes == w.db.codes[r.code := e.(consumedAt := Some(w.now))] && w'.db.grants == w.db.grants
    && w'.db.tokens - (if x.refresh.Some? then {x.refresh.value} else {}) == w.db.tokens
  }

  lemma ExchangeArrives(w: World, r: TokenEndpoint.CodeRequest)
    requires Fresh(w)
    ensures var w' := Apply(w, Exchange(r));
      if r.code !in w.db.codes then w' == w
      else if Expired(w, r) || (Mismatched(w, r) && w.db.codes[r.code].consumedAt.None?) then w' == Spawn(w, DeleteCode(r.code))
      else if Mismatched(w, r) || !Verified(w, r) then w' == w
      else if w.db.codes[r.code].consumedAt.Some? || PresentsCode(w, Exchange(r), r.code) then w' == Spawn(w, CodeAuth(r.code, w.db.codes[r.code]))
      else w' == w
  {
  }

  lemma DeleteStep(w: World, code: Hash, a: Answer)
    requires w.next !in w.flights
    ensures OneStep(w, DeleteCode(code), a) == Over(w).(db := w.db.(codes := w.db.codes - {code}))
  {
    SpawnDone(w, DeleteCode(code));
    hide Mint, ClaimCode, ClaimDevice, RotateToken;
  }

  lemma CodeAuthStep(w: World, code: Hash, e: AuthCode, a: Answer)
    requires w.next !in w.flights
    ensures OneStep(w, CodeAuth(code, e), a) ==
      if !a.ok then Over(w) else Spawn(w, if e.consumedAt.Some? then Revoking(e.grant) else CodeGrant(code, e))
  {
    SpawnDone(w, CodeAuth(code, e));
    hide Mint, ClaimCode, ClaimDevice, RotateToken;
  }

  lemma CodeGrantStep(w: World, code: Hash, e: AuthCode, a: Answer)
    requires w.next !in w.flights
    ensures OneStep(w, CodeGrant(code, e), a) ==
      if LiveGrant(w, e.grant) then Spawn(w, CodeUser(code, e, w.db.grants[e.grant].releasedClaims)) else Over(w)
  {
    SpawnDone(w, CodeGrant(code, e));
    hide Mint, ClaimCode, ClaimDevice, RotateToken;
  }

  lemma CodeUserStep(w: World, code: Hash, e: AuthCode, consented: seq<string>, a: Answer) returns (m: Minted)
    requires w.next !in w.flights
    ensures OneStep(w, CodeUser(code, e, consented), a) ==
      if a.ok && e.resource in w.reg then Spawn(w, CodeClaim(code, e, m)) else Over(w)
    ensures e.resource in w.reg ==> Says(m, w.reg, e.resource, e.scopes, consented, a.present)
  {
    SpawnDone(w, CodeUser(code, e, consented));
    var minted := Mint(w.reg, e.resource, AccessTokenScopes(e.scopes), consented, a.present);
    m := if minted.Some? then minted.value else Minted([], [], 0, Server("", "", [], []));
    if e.resource in w.reg { MintSays(w.reg, e.resource, e.scopes, consented, a.present); }
    hide Mint, ClaimCode, ClaimDevice, RotateToken, Says;
  }

  lemma CodeClaimStep(w: World, code: Hash, e: AuthCode, m: Minted, a: Answer)
    requires Fresh(w) && code in w.db.codes && e == w.db.codes[code] && e.consumedAt.None? && e.grant == GrantKey(e.user, e.client, e.resource)
    ensures var w' := OneStep(w, CodeClaim(code, e, m), a);
      && w'.flights == w.flights
      && (!a.ok ==> w' == Over(w))
      && (a.ok ==>
            && |w'.hist.issued| > |w.hist.issued|
            && var x := w'.hist.issued[|w.hist.issued|];
            && Answers(w, w', x) && x.token == m && TakesCode(Over(w), w', x, code, e)
            && w'.db.codes == w.db.codes[code := e.(consumedAt := Some(w.now))] && w'.db.grants == w.db.grants
            && w'.db.tokens - (if x.refresh.Some? then {x.refresh.value} else {}) == w.db.tokens)
  {
    var u := Spawn(w, CodeClaim(code, e, m));
    SpawnDone(w, CodeClaim(code, e, m));
    CodeClaimResponds(u, w.next, a);
    SameTaking(u, Over(w), Apply(u, Advance(w.next, a)), code, e);
    ClaimEffect(u.db, code, e, u.reg, u.next, u.now);
    hide ClaimCode, Mint, TakesCode, ClaimDevice, RotateToken, RevokeTokens;
  }

  /** Taking depends on tables, clock, registry and names only. */
  lemma SameTaking(u: World, v: World, w': World, code: Hash, e: AuthCode)
    requires u.db == v.db && u.now == v.now && u.reg == v.reg && u.next == v.next
    ensures forall x :: TakesCode(u, w', x, code, e) ==> TakesCode(v, w', x, code, e)
  {
    hide CarriesOn;
  }

  lemma ClaimEffect(db: Db, code: Hash, e: AuthCode, reg: Registry, drawn: Hash, now: Time)
    requires code in db.codes && e == db.codes[code] && e.consumedAt.None? && drawn !in db.tokens
    ensures var (db', claim) := ClaimCode(db, code, e, reg, drawn, now);
      && claim.Claimed? && db'.codes == db.codes[code := e.(consumedAt := Some(now))] && db'.grants == db.grants
      && db'.tokens - (if claim.refresh.Some? then {claim.refresh.value} else {}) == db.tokens
  {
    hide RefreshableScopes;
  }

  /** The code as presented, consumed or not. */
  predicate HasProofs(w: World, r: TokenEndpoint.CodeRequest) {
    && r.code in w.db.codes && !Expired(w, r) && !Mismatched(w, r) && Verified(w, r)
    && (w.db.codes[r.code].consumedAt.Some? || PresentsCode(w, Exchange(r), r.code))
    && var e := w.db.codes[r.code];
    && e.grant == GrantKey(e.user, e.client, e.resource)
  }

  lemma UnusedCodeGoesOn(w: World, r: TokenEndpoint.CodeRequest, answers: seq<Answer>)
    requires Fresh(w) && |answers| == 4 && HasProofs(w, r) && w.db.codes[r.code].consumedAt.None? && answers[0].ok
    ensures ExchangeComesTo(w, r, answers, From(w, CodeGrant(r.code, w.db.codes[r.code]), answers[1..]))
  {
    hide Apply, OneStep, Says, TakesCode, FamilyRevoked, Onward, From;
    var code, e := r.code, w.db.codes[r.code];
    CodeGrantStep(w, code, e, answers[1]);
    if !LiveGrant(w, e.grant) {
      Ends(w, CodeGrant(code, e), answers[1..]);
    } else {
      var consented := w.db.grants[e.grant].releasedClaims;
      GoesOn(w, CodeGrant(code, e), CodeUser(code, e, consented), answers[1..]);
      var m := CodeUserStep(w, code, e, consented, answers[2]);
      if !answers[2].ok || e.resource !in w.reg {
        Ends(w, CodeUser(code, e, consented), answers[2..]);
      } else {
        GoesOn(w, CodeUser(code, e, consented), CodeClaim(code, e, m), answers[2..]);
        CodeClaimStep(w, code, e, m, answers[3]);
        Ends(w, CodeClaim(code, e, m), answers[3..]);
      }
    }
  }

  lemma ProofsGoOn(w: World, r: TokenEndpoint.CodeRequest, answers: seq<Answer>)
    requires Fresh(w) && |answers| == 4 && HasProofs(w, r)
    ensures ExchangeComesTo(w, r, answers, From(w, CodeAuth(r.code, w.db.codes[r.code]), answers))
  {
    var code, e := r.code, w.db.codes[r.code];
    CodeAuthStep(w, code, e, answers[0]);
    hide Apply, OneStep, Says, TakesCode, FamilyRevoked, Onward, From, GrantedExchange;
    if !answers[0].ok {
      Ends(w, CodeAuth(code, e), answers);
    } else if e.consumedAt.Some? {
      GoesOn(w, CodeAuth(code, e), Revoking(e.grant), answers);
      RevokingStep(w, e.grant, answers[1]);
      Ends(w, Revoking(e.grant), answers[1..]);
    } else {
      GoesOn(w, CodeAuth(code, e), CodeGrant(code, e), answers);
      UnusedCodeGoesOn(w, r, answers);
      hide RefusedExchange;
    }
  }

  lemma ExchangeOnItsOwn(w: World, r: TokenEndpoint.CodeRequest, answers: seq<Answer>)
    requires Fresh(w) && |answers| == 4
    requires r.code in w.db.codes ==> var e := w.db.codes[r.code]; e.grant == GrantKey(e.user, e.client, e.resource)
    ensures ExchangeComesTo(w, r, answers, Onward(Apply(w, Exchange(r)), w.next, answers))
  {
    ExchangeArrives(w, r);
    hide Apply, OneStep, Onward, ExchangeComesTo;
    if HasProofs(w, r) {
      ProofsGoOn(w, r, answers);
    } else if r.code in w.db.codes && (Expired(w, r) || (Mismatched(w, r) && w.db.codes[r.code].consumedAt.None?)) {
      BurningGoesOn(w, r, answers);
    } else {
      NothingMore(w, w.next, answers);
      UnprovedChangesNothing(w, r, answers);
    }
  }

  lemma BurningGoesOn(w: World, r: TokenEndpoint.CodeRequest, answers: seq<Answer>)
    requires Fresh(w) && |answers| == 4
    requires r.code in w.db.codes && (Expired(w, r) || (Mismatched(w, r) && w.db.codes[r.code].consumedAt.None?))
    ensures ExchangeComesTo(w, r, answers, From(w, DeleteCode(r.code), answers))
  {
    hide Apply, OneStep, Onward, From, GrantedExchange;
    DeleteStep(w, r.code, answers[0]);
    Ends(w, DeleteCode(r.code), answers);
  }

  lemma UnprovedChangesNothing(w: World, r: TokenEndpoint.CodeRequest, answers: seq<Answer>)
    requires |answers| == 4
    requires r.code in w.db.codes ==> var e := w.db.codes[r.code]; e.grant == GrantKey(e.user, e.client, e.resource)
    requires !HasProofs(w, r) && !(r.code in w.db.codes && (Expired(w, r) || (Mismatched(w, r) && w.db.codes[r.code].consumedAt.None?)))
    ensures ExchangeComesTo(w, r, answers, w)
  {
    hide GrantedExchange, FamilyRevoked;
  }

  /** In every reachable state, an exchange on its own succeeds exactly when the code is there, in
      time and unused, the request proves possession, the client authenticates, the grant is live,
      the user is active, the resource is registered and the transaction commits. */
  lemma WhenAnExchangeSucceeds(now: Time, reg: Registry, run: seq<Step>, n: nat, r: TokenEndpoint.CodeRequest, answers: seq<Answer>)
    requires n <= |run| && |answers| == 4
    ensures var w := At(Init(now, reg), run, n);
      ExchangeComesTo(w, r, answers, Onward(Apply(w, Exchange(r)), w.next, answers))
  {
    var w := At(Init(now, reg), run, n);
    ReachableIsSound(now, reg, run, n);
    if r.code in w.db.codes { assert CodeOk(w.hist.facts, w.db.codes[r.code]); }
    hide Apply, Onward, ExchangeComesTo, At, TraceInv;
    ExchangeOnItsOwn(w, r, answers);
  }

  lemma ReachableIsSound(now: Time, reg: Registry, run: seq<Step>, n: nat)
    requires n <= |run|
    ensures Fresh(At(Init(now, reg), run, n)) && TraceInv(At(Init(now, reg), run, n)) && SnapshotInv(At(Init(now, reg), run, n))
  {
    EmptyIsSound(now, reg);
    RunKeepsSnapshots(Init(now, reg), run, n);
    RunKeepsTrace(Init(now, reg), run, n);
    hide Apply, At, TraceInv;
  }

  // ---------------------------------------------------------------- refresh

  /** Client, user and transaction succeed; the answers at the grant check and at minting have no
      say. */
  predicate RefreshOk(w: World, h: Hash, client: string, asked: Option<string>, answers: seq<Answer>)
    requires |answers| == 5
  {
    && PresentsToken(w, Refresh(h, client, asked), h) && PassesTokenChecks(w, Refresh(h, client, asked), w.db.tokens[h])
    && LiveGrant(w, w.db.tokens[h].grant)
    && answers[0].ok && answers[2].ok && answers[4].ok
  }

  /** A rotated token, presented by its own client, which authenticates. */
  predicate IsReuse(w: World, h: Hash, client: string, answers: seq<Answer>)
    requires |answers| == 5
  {
    h in w.db.tokens && w.db.tokens[h].client == client && w.db.tokens[h].rotatedTo.Some? && answers[0].ok
  }

  /** Reuse revokes the family, any other refused refresh changes nothing. */
  ghost predicate RefreshComesTo(w: World, h: Hash, client: string, asked: Option<string>, answers: seq<Answer>, w': World)
    requires |answers| == 5
  {
    if RefreshOk(w, h, client, asked, answers) then GrantedRefresh(w, h, answers[2].groups, answers[3].present, w')
    else if IsReuse(w, h, client, answers)
    then AnswersNothing(w, w') && w'.db == w.db.(tokens := w'.db.tokens) && FamilyRevoked(w.db.tokens, w'.db.tokens, w.db.tokens[h].grant, w.now)
    else AnswersNothing(w, w') && w'.db == w.db
  }

  ghost predicate GrantedRefresh(w: World, h: Hash, groups: set<string>, present: set<string>, w': World)
    requires h in w.db.tokens && w.db.tokens[h].grant in w.db.grants
  {
    var e := w.db.tokens[h];
    && |w'.hist.issued| > |w.hist.issued|
    && var x := w'.hist.issued[|w.hist.issued|];
    && Answers(w, w', x)
    && TakesToken(Over(w), w', x, h, e)
    && StillKept(x.scopeField, w.reg, e.resource, e.scopes, groups)
    && Says(x.token, w.reg, e.resource, x.scopeField, w.db.grants[e.grant].releasedClaims, present)
    && w'.db == w.db.(tokens := w'.db.tokens)
    && w'.db.tokens - {h, w.next + 1} == w.db.tokens - {h}
  }

  lemma RefreshAuthStep(w: World, h: Hash, e: RefreshToken, asked: Option<string>, a: Answer)
    requires w.next !in w.flights
    ensures OneStep(w, RefreshAuth(h, e, asked), a) ==
      if a.ok && e.rotatedTo.Some? then Spawn(w, Revoking(e.grant))
      else if a.ok && PassesTokenChecks(w, Refresh(h, "", asked), e) then Spawn(w, RefreshGrant(h, e))
      else Over(w)
  {
    SpawnDone(w, RefreshAuth(h, e, asked));
    hide Mint, ClaimCode, ClaimDevice, RotateToken;
  }

  lemma RefreshGrantStep(w: World, h: Hash, e: RefreshToken, a: Answer)
    requires w.next !in w.flights
    ensures OneStep(w, RefreshGrant(h, e), a) ==
      if LiveGrant(w, e.grant) then Spawn(w, RefreshUser(h, e, w.db.grants[e.grant].releasedClaims)) else Over(w)
  {
    SpawnDone(w, RefreshGrant(h, e));
    hide Mint, ClaimCode, ClaimDevice, RotateToken;
  }

  lemma RefreshUserStep(w: World, h: Hash, e: RefreshToken, consented: seq<string>, a: Answer) returns (kept: seq<string>)
    requires w.next !in w.flights
    ensures OneStep(w, RefreshUser(h, e, consented), a) == if a.ok then Spawn(w, RefreshScopes(h, e, consented, kept)) else Over(w)
    ensures StillKept(kept, w.reg, e.resource, e.scopes, a.groups)
  {
    SpawnDone(w, RefreshUser(h, e, consented));
    kept := PermittedScopes(w.reg, e.resource, RefreshableScopes(w.reg, e.resource, e.scopes), a.groups);
    PermittedIsKept(w.reg, e.resource, e.scopes, a.groups);
    hide Mint, ClaimCode, ClaimDevice, RotateToken, PermittedScopes, RefreshableScopes, StillKept;
  }

  lemma RefreshScopesStep(w: World, h: Hash, e: RefreshToken, consented: seq<string>, kept: seq<string>, a: Answer) returns (m: Minted)
    requires w.next !in w.flights && e.resource in w.reg
    ensures OneStep(w, RefreshScopes(h, e, consented, kept), a) == Spawn(w, RefreshRotate(h, e, kept, m))
    ensures Says(m, w.reg, e.resource, kept, consented, a.present)
  {
    SpawnDone(w, RefreshScopes(h, e, consented, kept));
    m := Mint(w.reg, e.resource, AccessTokenScopes(kept), consented, a.present).value;
    MintSays(w.reg, e.resource, kept, consented, a.present);
    hide Mint, ClaimCode, ClaimDevice, RotateToken, Says;
  }

  lemma RotateStep(w: World, h: Hash, e: RefreshToken, kept: seq<string>, m: Minted, a: Answer)
    requires SnapshotInv(w) && h in w.db.tokens && e == w.db.tokens[h] && e.rotatedTo.None? && e.revokedAt.None?
    ensures var w' := OneStep(w, RefreshRotate(h, e, kept, m), a);
      && w.next !in w'.flights
      && (!a.ok ==> w' == Over(w))
      && (a.ok ==>
            && |w'.hist.issued| > |w.hist.issued|
            && var x := w'.hist.issued[|w.hist.issued|];
            && Answers(w, w', x) && x.token == m && x.scopeField == kept && TakesToken(Over(w), w', x, h, e)
            && w'.db == w.db.(tokens := w'.db.tokens) && w'.db.tokens - {h, w.next + 1} == w.db.tokens - {h})
  {
    SpawnDone(w, RefreshRotate(h, e, kept, m));
    assert h < w.next && w.next !in w.flights && w.next + 1 !in w.db.tokens;
    hide Mint, ClaimCode, ClaimDevice, RevokeTokens, SnapshotInv;
    var w' := OneStep(w, RefreshRotate(h, e, kept, m), a);
    if a.ok {
      assert w'.db.tokens == w.db.tokens[h := e.(rotatedTo := Some(w.next + 1))][w.next + 1 := w'.db.tokens[w.next + 1]];
    }
  }

  lemma LiveTokenGoesOn(w: World, h: Hash, client: string, asked: Option<string>, answers: seq<Answer>)
    requires SnapshotInv(w) && Fresh(w) && |answers| == 5 && answers[0].ok
    requires PresentsToken(w, Refresh(h, client, asked), h) && PassesTokenChecks(w, Refresh(h, client, asked), w.db.tokens[h])
    ensures RefreshComesTo(w, h, client, asked, answers, From(w, RefreshGrant(h, w.db.tokens[h]), answers[1..]))
  {
    hide Apply, OneStep, Says, StillKept, TakesToken, FamilyRevoked, Onward, From, SnapshotInv;
    var e := w.db.tokens[h];
    RefreshGrantStep(w, h, e, answers[1]);
    if !LiveGrant(w, e.grant) {
      Ends(w, RefreshGrant(h, e), answers[1..]);
    } else {
      var consented := w.db.grants[e.grant].releasedClaims;
      GoesOn(w, RefreshGrant(h, e), RefreshUser(h, e, consented), answers[1..]);
      var kept := RefreshUserStep(w, h, e, consented, answers[2]);
      if !answers[2].ok {
        Ends(w, RefreshUser(h, e, consented), answers[2..]);
      } else {
        GoesOn(w, RefreshUser(h, e, consented), RefreshScopes(h, e, consented, kept), answers[2..]);
        var m := RefreshScopesStep(w, h, e, consented, kept, answers[3]);
        GoesOn(w, RefreshScopes(h, e, consented, kept), RefreshRotate(h, e, kept, m), answers[3..]);
        RotateStep(w, h, e, kept, m, answers[4]);
        Ends(w, RefreshRotate(h, e, kept, m), answers[4..]);
      }
    }
  }

  lemma RefreshArrivesAs(w: World, h: Hash, client: string, asked: Option<string>)
    ensures Apply(w, Refresh(h, client, asked)) ==
      if h in w.db.tokens && w.db.tokens[h].client == client then Spawn(w, RefreshAuth(h, w.db.tokens[h], asked)) else w
  {
  }

  /** In every reachable state, a refresh on its own succeeds exactly when the token is there,
      unrotated, unrevoked and in time, the client is its own and authenticates, the resource is
      the one asked for and registered, the grant is live, the user is active and the transaction
      commits. */
  lemma WhenARefreshSucceeds(now: Time, reg: Registry, run: seq<Step>, n: nat, h: Hash, client: string, asked: Option<string>, answers: seq<Answer>)
    requires n <= |run| && |answers| == 5
    ensures var w := At(Init(now, reg), run, n);
      RefreshComesTo(w, h, client, asked, answers, Onward(Apply(w, Refresh(h, client, asked)), w.next, answers))
  {
    var w := At(Init(now, reg), run, n);
    ReachableIsSound(now, reg, run, n);
    RefreshArrivesAs(w, h, client, asked);
    hide Apply, At, Init, OneStep, Onward, FamilyRevoked, GrantedRefresh, SnapshotInv, TraceInv, RefreshComesTo;
    if h in w.db.tokens && w.db.tokens[h].client == client {
      RefreshGoesOn(w, h, client, asked, answers);
    } else {
      NothingMore(w, w.next, answers);
      NoSuchToken(w, h, client, asked, answers);
    }
  }

  lemma NoSuchToken(w: World, h: Hash, client: string, asked: Option<string>, answers: seq<Answer>)
    requires |answers| == 5 && !(h in w.db.tokens && w.db.tokens[h].client == client)
    ensures RefreshComesTo(w, h, client, asked, answers, w)
  {
  }

  lemma RefreshGoesOn(w: World, h: Hash, client: string, asked: Option<string>, answers: seq<Answer>)
    requires SnapshotInv(w) && Fresh(w) && |answers| == 5 && h in w.db.tokens && w.db.tokens[h].client == client
    ensures RefreshComesTo(w, h, client, asked, answers, From(w, RefreshAuth(h, w.db.tokens[h], asked), answers))
  {
    var e := w.db.tokens[h];
    RefreshAuthStep(w, h, e, asked, answers[0]);
    hide Apply, OneStep, FamilyRevoked, Onward, From, GrantedRefresh, SnapshotInv;
    if answers[0].ok && e.rotatedTo.Some? {
      GoesOn(w, RefreshAuth(h, e, asked), Revoking(e.grant), answers);
      RevokingStep(w, e.grant, answers[1]);
      Ends(w, Revoking(e.grant), answers[1..]);
    } else if answers[0].ok && PassesTokenChecks(w, Refresh(h, client, asked), e) {
      GoesOn(w, RefreshAuth(h, e, asked), RefreshGrant(h, e), answers);
      LiveTokenGoesOn(w, h, client, asked, answers);
      hide RefreshComesTo;
    } else {
      Ends(w, RefreshAuth(h, e, asked), answers);
    }
  }

  // ---------------------------------------------------------------- revocation

  /** In every reachable state, a revocation request on its own revokes the whole family of the token
      exactly when its own client asks and authenticates; otherwise it changes nothing. */
  lemma WhenARevocationRevokes(now: Time, reg: Registry, run: seq<Step>, n: nat, h: Hash, client: string, answers: seq<Answer>)
    requires n <= |run| && |answers| == 2
    ensures var w := At(Init(now, reg), run, n);
      var w' := Onward(Apply(w, Protocol.Revoke(h, client)), w.next, answers);
      && AnswersNothing(w, w')
      && if h in w.db.tokens && w.db.tokens[h].client == client && answers[0].ok
         then w'.db == w.db.(tokens := w'.db.tokens) && FamilyRevoked(w.db.tokens, w'.db.tokens, w.db.tokens[h].grant, w.now)
         else w'.db == w.db
  {
    var w := At(Init(now, reg), run, n);
    ReachableIsSound(now, reg, run, n);
    hide At, Init, FamilyRevoked, SnapshotInv, TraceInv;
    RevocationArrives(w, h, client);
    hide Apply, OneStep, Onward;
    if h in w.db.tokens && w.db.tokens[h].client == client {
      var e := w.db.tokens[h];
      RevokeAuthStep(w, e, answers[0]);
      if answers[0].ok {
        GoesOn(w, RevokeAuth(e), Revoking(e.grant), answers);
        RevokingStep(w, e.grant, answers[1]);
        Ends(w, Revoking(e.grant), answers[1..]);
      } else {
        Ends(w, RevokeAuth(e), answers);
      }
    } else {
      NothingMore(w, w.next, answers);
    }
  }

  lemma RevocationArrives(w: World, h: Hash, client: string)
    ensures Apply(w, Protocol.Revoke(h, client)) ==
      if h in w.db.tokens && w.db.tokens[h].client == client then Spawn(w, RevokeAuth(w.db.tokens[h])) else w
  {
  }

  lemma RevokeAuthStep(w: World, e: RefreshToken, a: Answer)
    requires w.next !in w.flights
    ensures OneStep(w, RevokeAuth(e), a) == if a.ok then Spawn(w, Revoking(e.grant)) else Over(w)
  {
    SpawnDone(w, RevokeAuth(e));
    hide Mint, ClaimCode, ClaimDevice, RotateToken;
  }

  // ---------------------------------------------------------------- polling

  /** Client, user and transaction succeed; the answer at minting has no say. */
  predicate PollOk(w: World, device: Hash, client: string, asked: Option<string>, answers: seq<Answer>)
    requires |answers| == 4
  {
    && PresentsDevice(w, Poll(device, client, asked), device) && w.db.devices[device].resource in w.reg
    && answers[0].ok && answers[1].ok && answers[3].ok
  }

  /** The poll is by the device's own client. */
  predicate ByItsClient(w: World, device: Hash, client: string) {
    device in w.db.devices && w.db.devices[device].client == client
  }

  predicate AsksForIts(w: World, device: Hash, asked: Option<string>)
    requires device in w.db.devices
  {
    asked.Some? ==> asked.value == w.db.devices[device].resource
  }

  /** An expired or denied device code is deleted; a pending one is marked as polled, and polled too
      fast it is slowed down by five seconds; an approved one under a live grant is redeemed, and
      without one it is used up; anything else changes nothing. */
  ghost predicate PollComesTo(w: World, device: Hash, client: string, asked: Option<string>, answers: seq<Answer>, w': World)
    requires |answers| == 4
  {
    if !ByItsClient(w, device, client) then AnswersNothing(w, w') && w'.db == w.db
    else
      var e := w.db.devices[device];
      if e.expiresAt < w.now || (AsksForIts(w, device, asked) && e.status == Denied)
      then AnswersNothing(w, w') && w'.db == w.db.(devices := w.db.devices - {device})
      else if AsksForIts(w, device, asked) && e.status == Pending
      then
        var slower := if e.lastPolledAt.Some? && w.now < e.lastPolledAt.value + 1000 * e.pollInterval then 5 else 0;
        AnswersNothing(w, w')
        && w'.db == w.db.(devices := w.db.devices[device := e.(lastPolledAt := Some(w.now), pollInterval := e.pollInterval + slower)])
      else if !PollOk(w, device, client, asked, answers) then AnswersNothing(w, w') && w'.db == w.db
      else if LiveGrant(w, GrantKey(e.user.value, e.client, e.resource)) then GrantedPoll(w, device, answers[2].present, w')
      else AnswersNothing(w, w') && w'.db == w.db.(devices := w.db.devices[device := e.(status := Consumed)])
  }

  ghost predicate GrantedPoll(w: World, device: Hash, present: set<string>, w': World)
    requires device in w.db.devices && w.db.devices[device].user.Some?
    requires var e := w.db.devices[device]; GrantKey(e.user.value, e.client, e.resource) in w.db.grants
  {
    var e := w.db.devices[device];
    && |w'.hist.issued| > |w.hist.issued|
    && var x := w'.hist.issued[|w.hist.issued|];
    && Answers(w, w', x)
    && TakesDevice(Over(w), w', x, device, e)
    && Says(x.token, w.reg, e.resource, e.scopes, w.db.grants[GrantKey(e.user.value, e.client, e.resource)].releasedClaims, present)
    && w'.db == w.db.(devices := w.db.devices[device := e.(status := Consumed)], tokens := w'.db.tokens)
    && w'.db.tokens - (if x.refresh.Some? then {x.refresh.value} else {}) == w.db.tokens
  }

  lemma PollArrives(w: World, device: Hash, client: string, asked: Option<string>)
    requires device in w.db.devices && w.db.devices[device].client == client && w.now <= w.db.devices[device].expiresAt
    requires AsksForIts(w, device, asked) && (w.db.devices[device].status == Approved ==> w.db.devices[device].user.Some?)
    ensures var e := w.db.devices[device];
      Apply(w, Poll(device, client, asked)) == match e.status
        case Denied => Spawn(w, DeleteDevice(device))
        case Consumed => w
        case Pending =>
          Spawn(w, PollDevice(device, if e.lastPolledAt.Some? && w.now < e.lastPolledAt.value + 1000 * e.pollInterval then Some(e.pollInterval + 5) else None))
        case Approved => Spawn(w, DeviceAuth(device, e, e.user.value))
  {
  }

  lemma PollIsRefused(w: World, device: Hash, client: string, asked: Option<string>)
    ensures !ByItsClient(w, device, client) ==> Apply(w, Poll(device, client, asked)) == w
    ensures ByItsClient(w, device, client) && w.db.devices[device].expiresAt < w.now ==>
      Apply(w, Poll(device, client, asked)) == Spawn(w, DeleteDevice(device))
    ensures ByItsClient(w, device, client) && w.now <= w.db.devices[device].expiresAt && !AsksForIts(w, device, asked) ==>
      Apply(w, Poll(device, client, asked)) == w
  {
  }

  lemma DeviceRowStep(w: World, device: Hash, slower: Option<int>, a: Answer)
    requires w.next !in w.flights && device in w.db.devices
    ensures OneStep(w, DeleteDevice(device), a) == Over(w).(db := w.db.(devices := w.db.devices - {device}))
    ensures var e := w.db.devices[device];
      OneStep(w, PollDevice(device, slower), a) == Over(w).(db := w.db.(devices :=
        w.db.devices[device := e.(lastPolledAt := Some(w.now), pollInterval := if slower.Some? then slower.value else e.pollInterval)]))
  {
    SpawnDone(w, DeleteDevice(device));
    SpawnDone(w, PollDevice(device, slower));
    hide Mint, ClaimCode, ClaimDevice, RotateToken;
  }

  lemma DeviceSteps(w: World, device: Hash, e: DeviceCode, user: string, a: Answer)
    requires w.next !in w.flights
    ensures OneStep(w, DeviceAuth(device, e, user), a) == if a.ok then Spawn(w, DeviceUser(device, e, user)) else Over(w)
    ensures OneStep(w, DeviceUser(device, e, user), a) == if a.ok then Spawn(w, DeviceMint(device, e, user)) else Over(w)
  {
    SpawnDone(w, DeviceAuth(device, e, user));
    SpawnDone(w, DeviceUser(device, e, user));
    hide Mint, ClaimCode, ClaimDevice, RotateToken;
  }

  lemma DeviceMintStep(w: World, device: Hash, e: DeviceCode, user: string, a: Answer) returns (m: Minted)
    requires w.next !in w.flights
    ensures OneStep(w, DeviceMint(device, e, user), a) == if e.resource in w.reg then Spawn(w, DeviceClaim(device, e, user, m)) else Over(w)
    ensures e.resource in w.reg ==> Says(m, w.reg, e.resource, e.scopes, DeviceClaims(w, user, e), a.present)
  {
    SpawnDone(w, DeviceMint(device, e, user));
    var minted := Mint(w.reg, e.resource, AccessTokenScopes(e.scopes), DeviceClaims(w, user, e), a.present);
    m := if minted.Some? then minted.value else Minted([], [], 0, Server("", "", [], []));
    if e.resource in w.reg { MintSays(w.reg, e.resource, e.scopes, DeviceClaims(w, user, e), a.present); }
    hide Mint, ClaimCode, ClaimDevice, RotateToken, Says;
  }

  lemma DeviceClaimStep(w: World, device: Hash, e: DeviceCode, m: Minted, a: Answer)
    requires Fresh(w) && device in w.db.devices && e == w.db.devices[device] && e.status == Approved && e.user.Some?
    ensures var w' := OneStep(w, DeviceClaim(device, e, e.user.value, m), a);
      && w.next !in w'.flights
      && (!a.ok ==> w' == Over(w))
      && (a.ok && LiveGrant(w, GrantKey(e.user.value, e.client, e.resource)) ==>
            && |w'.hist.issued| > |w.hist.issued|
            && var x := w'.hist.issued[|w.hist.issued|];
            && Answers(w, w', x) && x.token == m && TakesDevice(Over(w), w', x, device, e)
            && w'.db == w.db.(devices := w.db.devices[device := e.(status := Consumed)], tokens := w'.db.tokens)
            && w'.db.tokens - (if x.refresh.Some? then {x.refresh.value} else {}) == w.db.tokens)
      && (a.ok && !LiveGrant(w, GrantKey(e.user.value, e.client, e.resource)) ==>
            AnswersNothing(w, w') && w'.db == w.db.(devices := w.db.devices[device := e.(status := Consumed)]))
  {
    var f := DeviceClaim(device, e, e.user.value, m);
    var u := Spawn(w, f);
    SpawnDone(w, f);
    DeviceClaimResponds(u, w.next, a);
    SameDeviceTaking(u, Over(w), Apply(u, Advance(w.next, a)), device, e);
    DeviceClaimEffect(u.db, device, e, u.reg, u.next, u.now);
    hide ClaimDevice, Mint, TakesDevice, ClaimCode, RotateToken, RevokeTokens;
  }

  lemma SameDeviceTaking(u: World, v: World, w': World, device: Hash, e: DeviceCode)
    requires u.db == v.db && u.now == v.now && u.reg == v.reg && u.next == v.next
    ensures forall x :: TakesDevice(u, w', x, device, e) ==> TakesDevice(v, w', x, device, e)
  {
    hide CarriesOn;
  }

  lemma DeviceClaimEffect(db: Db, device: Hash, e: DeviceCode, reg: Registry, drawn: Hash, now: Time)
    requires device in db.devices && e == db.devices[device] && e.status == Approved && e.user.Some? && drawn !in db.tokens
    ensures var (db', claim) := ClaimDevice(db, device, e, e.user.value, reg, drawn, now);
      var g := GrantKey(e.user.value, e.client, e.resource);
      && db' == db.(devices := db.devices[device := e.(status := Consumed)], tokens := db'.tokens)
      && if g in db.grants && db.grants[g].revokedAt.None?
         then claim.Claimed? && db'.tokens - (if claim.refresh.Some? then {claim.refresh.value} else {}) == db.tokens
         else claim == GrantRevoked && db'.tokens == db.tokens
  {
    hide RefreshableScopes;
  }

  lemma ApprovedDeviceGoesOn(w: World, device: Hash, client: string, asked: Option<string>, answers: seq<Answer>)
    requires Fresh(w) && |answers| == 4 && PresentsDevice(w, Poll(device, client, asked), device)
    ensures PollComesTo(w, device, client, asked, answers, From(w, DeviceAuth(device, w.db.devices[device], w.db.devices[device].user.value), answers))
  {
    hide Apply, OneStep, Says, TakesDevice, Onward, From;
    var e := w.db.devices[device];
    var user := e.user.value;
    DeviceSteps(w, device, e, user, answers[0]);
    if !answers[0].ok {
      Ends(w, DeviceAuth(device, e, user), answers);
    } else {
      GoesOn(w, DeviceAuth(device, e, user), DeviceUser(device, e, user), answers);
      DeviceSteps(w, device, e, user, answers[1]);
      if !answers[1].ok {
        Ends(w, DeviceUser(device, e, user), answers[1..]);
      } else {
        GoesOn(w, DeviceUser(device, e, user), DeviceMint(device, e, user), answers[1..]);
        MintingGoesOn(w, device, client, asked, answers);
        hide PollComesTo;
      }
    }
  }

  lemma MintingGoesOn(w: World, device: Hash, client: string, asked: Option<string>, answers: seq<Answer>)
    requires Fresh(w) && |answers| == 4 && PresentsDevice(w, Poll(device, client, asked), device) && answers[0].ok && answers[1].ok
    ensures PollComesTo(w, device, client, asked, answers, From(w, DeviceMint(device, w.db.devices[device], w.db.devices[device].user.value), answers[2..]))
  {
    hide Apply, OneStep, Says, TakesDevice, Onward, From;
    var e := w.db.devices[device];
    var user := e.user.value;
    var m := DeviceMintStep(w, device, e, user, answers[2]);
    if e.resource !in w.reg {
      Ends(w, DeviceMint(device, e, user), answers[2..]);
    } else {
      GoesOn(w, DeviceMint(device, e, user), DeviceClaim(device, e, user, m), answers[2..]);
      DeviceClaimStep(w, device, e, m, answers[3]);
      Ends(w, DeviceClaim(device, e, user, m), answers[3..]);
    }
  }

  /** In every reachable state, a poll on its own answers with tokens exactly when the device code is
      there, in time and approved, its client polls for its resource and authenticates, the user is
      active, the resource is registered, the grant is live and the transaction commits. */
  lemma WhenAPollSucceeds(now: Time, reg: Registry, run: seq<Step>, n: nat, device: Hash, client: string, asked: Option<string>, answers: seq<Answer>)
    requires n <= |run| && |answers| == 4
    ensures var w := At(Init(now, reg), run, n);
      PollComesTo(w, device, client, asked, answers, Onward(Apply(w, Poll(device, client, asked)), w.next, answers))
  {
    var w := At(Init(now, reg), run, n);
    ReachableIsSound(now, reg, run, n);
    if device in w.db.devices { assert DeviceOk(w.hist.facts, w.db.devices[device]); }
    hide At, Init, TraceInv, SnapshotInv, PollComesTo, Apply;
    PollOnItsOwn(w, device, client, asked, answers);
  }

  lemma PollOnItsOwn(w: World, device: Hash, client: string, asked: Option<string>, answers: seq<Answer>)
    requires Fresh(w) && |answers| == 4
    requires device in w.db.devices && w.db.devices[device].status == Approved ==> w.db.devices[device].user.Some?
    ensures PollComesTo(w, device, client, asked, answers, Onward(Apply(w, Poll(device, client, asked)), w.next, answers))
  {
    hide Apply, OneStep, Onward, GrantedPoll;
    PollIsRefused(w, device, client, asked);
    NothingMore(w, w.next, answers);
    if ByItsClient(w, device, client) {
      var e := w.db.devices[device];
      DeviceRowStep(w, device, None, answers[0]);
      DeviceRowStep(w, device, Some(e.pollInterval + 5), answers[0]);
      Ends(w, DeleteDevice(device), answers);
      Ends(w, PollDevice(device, None), answers);
      Ends(w, PollDevice(device, Some(e.pollInterval + 5)), answers);
      if w.now <= e.expiresAt && AsksForIts(w, device, asked) {
        PollArrives(w, device, client, asked);
        if e.status == Approved {
          ApprovedDeviceGoesOn(w, device, client, asked, answers);
          hide PollComesTo;
        }
      }
    }
  }
}
