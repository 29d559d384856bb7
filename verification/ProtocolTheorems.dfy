/** The promises of the token endpoint, over every run from an empty database. */
module ProtocolTheorems {
  import opened Basics
  import opened ResourceRegistry
  import opened Tables
  import opened World
  import opened Protocol
  import opened ProtocolChains
  import opened ProtocolTrace
  import opened ProtocolOnce
  import TokenChains
  import TokenEndpoint
  import Consent

  lemma EmptyIsSound(now: Time, reg: Registry)
    ensures SnapshotInv(Init(now, reg)) && TraceInv(Init(now, reg)) && OnceInv(Init(now, reg))
  {
  }

  /** No authorization request completes twice, no request is approved twice, and no code,
      device code or refresh token is behind two token responses. */
  lemma SingleUse(now: Time, reg: Registry, run: seq<Step>, n: nat)
    requires n <= |run|
    ensures var hist := At(Init(now, reg), run, n).hist;
      && (forall i, j :: 0 <= i < j < |hist.completed| ==> hist.completed[i] != hist.completed[j])
      && (forall a, b :: a in hist.facts.approved && b in hist.facts.approved && a.handle == b.handle ==> a == b)
      && (forall i, j :: 0 <= i < j < |hist.issued| ==> hist.issued[i].credential != hist.issued[j].credential)
  {
    EmptyIsSound(now, reg);
    RunKeepsOnce(Init(now, reg), run, n);
  }

  // ---------------------------------------------------------------- steps and responses

  lemma ArrivalKeepsFlights(w: World, step: Step, id: Hash)
    requires !step.Advance? && id in w.flights && id < w.next
    ensures id in Apply(w, step).flights && Apply(w, step).flights[id] == w.flights[id]
  {
  }

  /** The step at which a response was given. */
  lemma {:induction false} ResponseStep(w: World, run: seq<Step>, n: nat, x: Issued) returns (k: nat)
    requires n <= |run| && x in At(w, run, n).hist.issued && x !in w.hist.issued
    ensures k < n && At(w, run, k + 1).hist.issued == At(w, run, k).hist.issued + [x]
  {
    hide Apply;
    assert n > 0;
    StepResponds(At(w, run, n - 1), run[n - 1]);
    var before, after := At(w, run, n - 1).hist.issued, At(w, run, n).hist.issued;
    if x in before {
      k := ResponseStep(w, run, n - 1, x);
    } else {
      assert after == before + [x];
      k := n - 1;
    }
  }

  lemma ResponseOfClaim(w: World, step: Step, x: Issued) returns (a: Approval)
    requires TraceInv(w) && x.credential.FromCode? && Apply(w, step).hist.issued == w.hist.issued + [x]
    ensures step.Advance? && step.flight in w.flights && w.flights[step.flight].CodeClaim? && step.answer.ok
    ensures w.flights[step.flight].code == x.credential.code && x.via == Some(a)
    ensures var e := w.flights[step.flight].codeEntry;
      e.client == x.client == a.req.client && e.redirectUri == a.req.redirectUri && e.challenge == a.req.challenge
  {
    RespondsByAdvance(w, step);
    AdvanceTokenResponds(w, step.flight, step.answer);
    assert x == Apply(w, step).hist.issued[|w.hist.issued|];
    assert FlightOk(w.hist.facts, w.flights[step.flight]);
    a := w.flights[step.flight].codeEntry.via.value;
  }

  lemma RespondsByAdvance(w: World, step: Step)
    requires |Apply(w, step).hist.issued| > |w.hist.issued|
    ensures step.Advance? && step.flight in w.flights && !IsConsentFlight(w.flights[step.flight]) && step.answer.ok
  {
    if step.Advance? && step.flight in w.flights && IsConsentFlight(w.flights[step.flight]) {
      ConsentRespondsNothing(w, step.flight, step.answer);
    }
  }

  lemma {:induction false} NextGrows(w: World, run: seq<Step>, i: nat, n: nat)
    requires SnapshotInv(w) && i <= n <= |run|
    ensures At(w, run, i).next <= At(w, run, n).next
  {
    hide Apply, SnapshotInv;
    if i < n {
      NextGrows(w, run, i, n - 1);
      RunKeepsSnapshots(w, run, n - 1);
      StepDraws(At(w, run, n - 1), run[n - 1]);
    }
  }

  lemma StepDraws(w: World, step: Step)
    requires SnapshotInv(w)
    ensures Apply(w, step).next >= w.next
  {
    hide Apply;
    StepIsOp(w, step);
    assert TableOf(Apply(w, step)).next >= TableOf(w).next;
  }

  /** The token response `x` is given at step `k`. */
  ghost predicate RespondsAt(w: World, run: seq<Step>, k: nat, x: Issued)
    requires k < |run|
  {
    At(w, run, k + 1).hist.issued == At(w, run, k).hist.issued + [x]
  }

  // ---------------------------------------------------------------- replays

  lemma ConsumedIsRedeemed(w: World, code: Hash)
    requires OnceInv(w) && code in w.db.codes
    ensures w.db.codes[code].consumedAt.Some? <==> Redeemed(w.hist.issued, FromCode(code))
  {
    if Redeemed(w.hist.issued, FromCode(code)) {
      var x :| x in w.hist.issued && x.credential == FromCode(code);
      assert Spent(w.db, x.credential);
    }
  }

  lemma RotatedIsRedeemed(w: World, h: Hash)
    requires OnceInv(w) && h in w.db.tokens
    ensures w.db.tokens[h].rotatedTo.Some? <==> Redeemed(w.hist.issued, FromRefresh(h))
  {
    if Redeemed(w.hist.issued, FromRefresh(h)) {
      var x :| x in w.hist.issued && x.credential == FromRefresh(h);
      assert Spent(w.db, x.credential);
    }
  }

  lemma RevokingRevokes(w: World, id: Hash, a: Answer)
    requires id in w.flights && w.flights[id].Revoking?
    ensures var w' := Apply(w, Advance(id, a));
      forall h :: h in w'.db.tokens && w'.db.tokens[h].grant == w.flights[id].grant ==> w'.db.tokens[h].revokedAt.Some?
  {
  }

  lemma ChecksKeepTokens(w: World, id: Hash, a: Answer)
    requires id in w.flights ==> w.flights[id].CodeGrant? || w.flights[id].RefreshGrant? || w.flights[id].CodeAuth? || w.flights[id].RefreshAuth?
    ensures Apply(w, Advance(id, a)).db == w.db
  {
  }

  lemma AuthDecides(w: World, id: Hash, a: Answer)
    requires id in w.flights && a.ok && (w.flights[id].CodeAuth? || w.flights[id].RefreshAuth?)
    ensures var f, w' := w.flights[id], Apply(w, Advance(id, a));
      && (f.CodeAuth? ==> id in w'.flights && w'.flights[id] == if f.codeEntry.consumedAt.Some? then Revoking(f.codeEntry.grant) else CodeGrant(f.code, f.codeEntry))
      && (f.RefreshAuth? && f.entry.rotatedTo.Some? ==> id in w'.flights && w'.flights[id] == Revoking(f.entry.grant))
      && (f.RefreshAuth? && f.entry.rotatedTo.None? && id in w'.flights ==> w'.flights[id] == RefreshGrant(f.token, f.entry))
  {
  }

  lemma ArrivalOpens(w: World, r: TokenEndpoint.CodeRequest, h: Hash)
    ensures r.code in w.db.codes && w.db.codes[r.code].expiresAt >= w.now && TokenEndpoint.Proves(r, w.db.codes[r.code]) && r.resource.None?
      ==> Apply(w, Exchange(r)) == Spawn(w, CodeAuth(r.code, w.db.codes[r.code]))
    ensures h in w.db.tokens ==> Apply(w, Refresh(h, w.db.tokens[h].client, None)) == Spawn(w, RefreshAuth(h, w.db.tokens[h], None))
  {
  }

  /** The arrival and first two steps of a request that presents a code with all its proofs,
      taken one after the other: a redeemed code costs the grant every refresh token it has,
      one not yet redeemed costs it none so far. What holds when other requests come in between
      is LiveTokensDescendFromLaterClaims; how the request may still end, LostExchange. */
  lemma ReplayedCodeRevokesFamily(w: World, r: TokenEndpoint.CodeRequest, a1: Answer, a2: Answer)
    requires OnceInv(w) && a1.ok
    requires r.code in w.db.codes && w.db.codes[r.code].expiresAt >= w.now
    requires TokenEndpoint.Proves(r, w.db.codes[r.code]) && r.resource.None?
    ensures var e := w.db.codes[r.code];
      var w' := Apply(Apply(Apply(w, Exchange(r)), Advance(w.next, a1)), Advance(w.next, a2));
      if Redeemed(w.hist.issued, FromCode(r.code))
      then forall h :: h in w'.db.tokens && w'.db.tokens[h].grant == e.grant ==> w'.db.tokens[h].revokedAt.Some?
      else w'.db.tokens == w.db.tokens
  {
    hide Apply, OnceInv, Redeemed, TokenEndpoint.Proves;
    ConsumedIsRedeemed(w, r.code);
    ArrivalOpens(w, r, 0);
    var w1 := Apply(w, Exchange(r));
    AuthDecides(w1, w.next, a1);
    ChecksKeepTokens(w1, w.next, a1);
    var w2 := Apply(w1, Advance(w.next, a1));
    if w2.flights[w.next].Revoking? { RevokingRevokes(w2, w.next, a2); } else { ChecksKeepTokens(w2, w.next, a2); }
  }

  /** The same three steps for refresh tokens: a rotated one revokes the whole family. */
  lemma ReusedTokenRevokesFamily(w: World, h: Hash, a1: Answer, a2: Answer)
    requires OnceInv(w) && a1.ok && h in w.db.tokens
    ensures var e := w.db.tokens[h];
      var w' := Apply(Apply(Apply(w, Refresh(h, e.client, None)), Advance(w.next, a1)), Advance(w.next, a2));
      if Redeemed(w.hist.issued, FromRefresh(h))
      then forall g :: g in w'.db.tokens && w'.db.tokens[g].grant == e.grant ==> w'.db.tokens[g].revokedAt.Some?
      else w'.db.tokens == w.db.tokens
  {
    hide Apply, OnceInv, Redeemed;
    RotatedIsRedeemed(w, h);
    ArrivalOpens(w, TokenEndpoint.CodeRequest(0, "", "", None, false, None), h);
    var w1 := Apply(w, Refresh(h, w.db.tokens[h].client, None));
    AuthDecides(w1, w.next, a1);
    ChecksKeepTokens(w1, w.next, a1);
    var w2 := Apply(w1, Advance(w.next, a1));
    if w.next in w2.flights && w2.flights[w.next].Revoking? { RevokingRevokes(w2, w.next, a2); } else { ChecksKeepTokens(w2, w.next, a2); }
  }

  /** A rotation that reaches its transaction turns into a revocation of the family exactly
      when the token was redeemed, was revoked, or its row is gone. The last is no reuse:
      pruning can do it. */
  lemma LostRotation(w: World, id: Hash, a: Answer)
    requires OnceInv(w) && id in w.flights && w.flights[id].RefreshRotate? && a.ok
    ensures var f := w.flights[id];
      var w' := Apply(w, Advance(id, a));
      (id in w'.flights <==>
        f.token !in w.db.tokens || w.db.tokens[f.token].revokedAt.Some? || Redeemed(w.hist.issued, FromRefresh(f.token)))
      && (id in w'.flights ==> w'.flights[id] == Revoking(f.entry.grant) && w'.db == w.db)
  {
    var h := w.flights[id].token;
    if Redeemed(w.hist.issued, FromRefresh(h)) {
      var x :| x in w.hist.issued && x.credential == FromRefresh(h);
      assert Spent(w.db, x.credential);
    }
  }

  /** The same for codes: an exchange that reaches its transaction turns into a revocation of the
      family exactly when the code was redeemed or its row is gone. The last is no replay: a
      request that failed its proofs, the code's expiry, and pruning delete rows too. */
  lemma LostExchange(w: World, id: Hash, a: Answer)
    requires OnceInv(w) && id in w.flights && w.flights[id].CodeClaim? && a.ok
    ensures var f := w.flights[id];
      var w' := Apply(w, Advance(id, a));
      (id in w'.flights <==> f.code !in w.db.codes || Redeemed(w.hist.issued, FromCode(f.code)))
      && (id in w'.flights ==> w'.flights[id] == Revoking(f.codeEntry.grant) && w'.db == w.db)
  {
    if w.flights[id].code in w.db.codes { ConsumedIsRedeemed(w, w.flights[id].code); }
    hide OnceInv, Redeemed, NewToken;
  }

  /** The rotation of flight `id` is about to commit, and pruning would remove its token but not
      the token `other` of the same grant. */
  ghost predicate PruningOvertakes(w: World, id: Hash, cutoff: Time, other: Hash) {
    && id in w.flights && w.flights[id].RefreshRotate? && cutoff <= w.now
    && w.flights[id].token in w.db.tokens && w.db.tokens[w.flights[id].token].expiresAt < cutoff
    && other in w.db.tokens && w.db.tokens[other].grant == w.flights[id].entry.grant && w.db.tokens[other].expiresAt >= cutoff
  }

  /** So a rotation that pruning overtakes revokes the family's other tokens although no
      token was presented twice. */
  lemma PrunedRotationRevokesFamily(w: World, id: Hash, cutoff: Time, a: Answer, other: Hash)
    requires PruningOvertakes(w, id, cutoff, other) && a.ok
    ensures var w' := Apply(Apply(Apply(w, Prune(Tokens, cutoff)), Advance(id, a)), Advance(id, a));
            other in w'.db.tokens && w'.db.tokens[other].revokedAt.Some?
  {
    var w1 := Apply(w, Prune(Tokens, cutoff));
    assert w1 == w.(db := w.db.(tokens := PruneTokens(w.db.tokens, cutoff)));
    hide Apply;
    MissingRotationRevokes(w1, id, a, a, other);
  }

  lemma MissingRotationRevokes(w: World, id: Hash, a1: Answer, a2: Answer, other: Hash)
    requires id in w.flights && w.flights[id].RefreshRotate? && a1.ok && w.flights[id].token !in w.db.tokens
    requires other in w.db.tokens && w.db.tokens[other].grant == w.flights[id].entry.grant
    ensures var w' := Apply(Apply(w, Advance(id, a1)), Advance(id, a2));
            other in w'.db.tokens && w'.db.tokens[other].revokedAt.Some?
  {
    var w1 := Apply(w, Advance(id, a1));
    assert w1 == w.(flights := w.flights[id := Revoking(w.flights[id].entry.grant)]);
    hide Mint, ClaimCode, ClaimDevice, PermittedScopes, RefreshableScopes;
  }

  // ---------------------------------------------------------------- revoked grants

  /** An exchange that has passed its grant check, and can still redeem its code for a refresh
      token. */
  ghost predicate PastGrantCheck(w: World, id: Hash) {
    SnapshotInv(w) && id in w.flights && w.flights[id].CodeClaim? && w.flights[id].codeEntry.grant in w.db.grants
  }

  predicate StillIssues(w: World, f: Flight)
    requires f.CodeClaim?
  {
    f.code in w.db.codes && w.db.codes[f.code].consumedAt.None? && OFFLINE_ACCESS in f.codeEntry.scopes
  }

  /** When the user revokes the grant then, the exchange still commits: it leaves a live refresh
      token under the revoked grant exactly when its code is not consumed and offline access was
      asked for. */
  lemma StraddlingExchange(w: World, id: Hash, a: Answer)
    requires PastGrantCheck(w, id) && a.ok
    ensures var g := w.flights[id].codeEntry.grant;
      var w' := Apply(Apply(w, Protocol.RevokeGrant(g)), Advance(id, a));
      && IsRevokedGrant(w', g)
      && ((exists h :: h in w'.db.tokens && w'.db.tokens[h].grant == g && w'.db.tokens[h].revokedAt.None?) <==> StillIssues(w, w.flights[id]))
  {
    var f := w.flights[id];
    var g := f.codeEntry.grant;
    var w1 := Apply(w, Protocol.RevokeGrant(g));
    RevokedFamily(w, g);
    assert w1.flights == w.flights && w1.db.codes == w.db.codes && w1.next == w.next;
    hide RevokeOneGrant;
    ClaimAfterRevocation(w1, id, a);
    assert Fits(TableOf(w), f);
    hide Apply, SnapshotInv;
  }

  lemma RevokedFamily(w: World, g: GrantKey)
    requires g in w.db.grants
    ensures var w' := Apply(w, Protocol.RevokeGrant(g));
      IsRevokedGrant(w', g) && forall h :: h in w'.db.tokens && w'.db.tokens[h].grant == g ==> w'.db.tokens[h].revokedAt.Some?
  {
  }

  lemma ClaimAfterRevocation(w: World, id: Hash, a: Answer)
    requires id in w.flights && w.flights[id].CodeClaim? && a.ok && IsRevokedGrant(w, w.flights[id].codeEntry.grant)
    requires forall h :: h in w.db.tokens && w.db.tokens[h].grant == w.flights[id].codeEntry.grant ==> w.db.tokens[h].revokedAt.Some?
    ensures var g := w.flights[id].codeEntry.grant;
      var w' := Apply(w, Advance(id, a));
      && IsRevokedGrant(w', g)
      && ((exists h :: h in w'.db.tokens && w'.db.tokens[h].grant == g && w'.db.tokens[h].revokedAt.None?) <==> StillIssues(w, w.flights[id]))
  {
    if StillIssues(w, w.flights[id]) {
      var w' := Apply(w, Advance(id, a));
      assert w.next in w'.db.tokens && w'.db.tokens[w.next].grant == w.flights[id].codeEntry.grant && w'.db.tokens[w.next].revokedAt.None?;
    }
    hide Mint;
  }

  /** An approval of flight `c` and a refresh of flight `id` are about one grant. */
  predicate ApprovalMeetsRefresh(w: World, c: Hash, id: Hash) {
    && c in w.flights && w.flights[c].ConsentApprove?
    && id in w.flights && id != c && w.flights[id].RefreshGrant?
    && KeyOf(Approval(w.flights[c].handle, w.flights[c].req)) == Some(w.flights[id].entry.grant)
  }

  /** The request is still open and, in a device flow, its device code still pending. */
  predicate CanComplete(w: World, handle: Hash, req: AuthRequest) {
    && handle in w.db.requests
    && (req.flow == DeviceFlow ==>
          req.userCode.Some? && PendingDevices(w.db.devices, req.userCode.value, req.client, w.now) != {})
  }

  predicate IsRevokedGrant(w: World, g: GrantKey) {
    g in w.db.grants && w.db.grants[g].revokedAt.Some?
  }

  /** Such a token is out of use only while the grant stays revoked: approving anything for the
      same user, client and resource makes the grant live again, and the old token with it,
      exactly when the approval completes. */
  lemma ReapprovalRevivesStraddler(w: World, c: Hash, a: Answer, id: Hash)
    requires ApprovalMeetsRefresh(w, c, id) && IsRevokedGrant(w, w.flights[id].entry.grant) && a.ok
    ensures var f := w.flights[id];
      var w' := Apply(Apply(w, Advance(c, a)), Advance(id, a));
      && (id in w'.flights <==> CanComplete(w, w.flights[c].handle, w.flights[c].req))
      && (id in w'.flights ==> w'.flights[id].RefreshUser? && w'.flights[id].token == f.token && w'.flights[id].entry == f.entry)
    ensures id !in Apply(w, Advance(id, a)).flights
  {
    hide Mint, NewToken, MergedGrant, ApproveRedirect, CompleteDevice, PendingDevices;
    ApprovalDecidesGrant(w, c, a);
    GrantDecidesRefresh(w, id, a);
    GrantDecidesRefresh(Apply(w, Advance(c, a)), id, a);
    hide Apply;
  }

  /** An approval that completes leaves its grant live, another one changes no grant. */
  lemma ApprovalDecidesGrant(w: World, c: Hash, a: Answer)
    requires c in w.flights && w.flights[c].ConsentApprove? && w.flights[c].req.subject.Some? && a.ok
    ensures var req, w' := w.flights[c].req, Apply(w, Advance(c, a));
      var g := GrantKey(req.subject.value, req.client, req.resource);
      && w'.flights == w.flights - {c}
      && (CanComplete(w, w.flights[c].handle, req) ==> g in w'.db.grants && w'.db.grants[g].revokedAt.None?)
      && (!CanComplete(w, w.flights[c].handle, req) ==> w'.db.grants == w.db.grants)
  {
  }

  lemma GrantDecidesRefresh(w: World, id: Hash, a: Answer)
    requires id in w.flights && w.flights[id].RefreshGrant?
    ensures var f, w' := w.flights[id], Apply(w, Advance(id, a));
      if f.entry.grant in w.db.grants && w.db.grants[f.entry.grant].revokedAt.None?
      then id in w'.flights && w'.flights[id] == RefreshUser(f.token, f.entry, w.db.grants[f.entry.grant].releasedClaims)
      else id !in w'.flights
  {
  }

  // ---------------------------------------------------------------- failures and the answer

  /** When its issuing transaction fails, a request leaves the whole database as it was: the
      code, device code or refresh token can be presented again. */
  lemma FailedIssueLeavesCredential(w: World, id: Hash, a: Answer)
    requires id in w.flights && (w.flights[id].CodeClaim? || w.flights[id].DeviceClaim? || w.flights[id].RefreshRotate?) && !a.ok
    ensures Apply(w, Advance(id, a)).db == w.db && Apply(w, Advance(id, a)).hist == w.hist && id !in Apply(w, Advance(id, a)).flights
  {
  }

  /** The `scope` field of a token response is the credential's scopes, the token's own claim
      only those of them declared at mint: the two agree exactly when offline_access is not
      among the credential's scopes and all of them were declared. */
  lemma ScopeFieldAgrees(scopes: seq<string>, reg: Registry, resource: string, consented: seq<string>, present: set<string>)
    requires resource in reg && OFFLINE_ACCESS !in ScopeNames(reg[resource].scopes)
    ensures var m := Mint(reg, resource, AccessTokenScopes(scopes), consented, present).value;
      m.scopes == scopes <==> forall s :: s in scopes ==> s in ScopeNames(reg[resource].scopes)
  {
    var m := Mint(reg, resource, AccessTokenScopes(scopes), consented, present).value;
    if forall s :: s in scopes ==> s in ScopeNames(reg[resource].scopes) {
      DropNone(scopes, {OFFLINE_ACCESS});
      KeepAll(scopes, ScopeNames(reg[resource].scopes));
    }
  }

  lemma {:induction false} DropNone(xs: seq<string>, unwanted: set<string>)
    requires forall x :: x in xs ==> x !in unwanted
    ensures Drop(xs, unwanted) == xs
  {
    if xs != [] { DropNone(xs[1..], unwanted); }
  }
}
