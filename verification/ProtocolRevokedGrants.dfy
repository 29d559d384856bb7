/** What a revoked grant still yields: nothing to a request that arrives afterwards, and to
    the requests in flight at the revocation at most a code exchange. */
module ProtocolRevokedGrants {
  import opened Basics
  import opened ResourceRegistry
  import opened Tables
  import opened World
  import opened Protocol
  import opened ProtocolChains
  import opened ProtocolTrace
  import opened ProtocolOnce
  import opened ProtocolTheorems
  import TokenChains
  import TokenEndpoint
  import Consent

  predicate IsRevoked(w: World, g: GrantKey) {
    g in w.db.grants && w.db.grants[g].revokedAt.Some?
  }

  /** The flight has seen `g` live and will not look again. */
  predicate PastCheck(f: Flight, g: GrantKey) {
    || ((f.CodeUser? || f.CodeClaim?) && f.codeEntry.grant == g)
    || ((f.RefreshUser? || f.RefreshScopes? || f.RefreshRotate?) && f.entry.grant == g)
  }

  /** What is past its check for `g` now was past it in `before` already, with the same token. */
  ghost predicate OnlyOld(before: World, w: World, g: GrantKey) {
    forall id :: id in w.flights && PastCheck(w.flights[id], g) ==> WasPast(before, w, id, g)
  }

  predicate WasPast(before: World, w: World, id: Hash, g: GrantKey)
    requires id in w.flights
  {
    id in before.flights && PastCheck(before.flights[id], g) && Held(before.flights[id]) == Held(w.flights[id])
  }

  lemma RevokedFailsCheck(w: World, id: Hash, a: Answer, g: GrantKey)
    requires IsRevoked(w, g) && id in w.flights && !IsConsentFlight(w.flights[id])
    requires id in TokenEndpoint.AdvanceToken(w, id, a).flights && PastCheck(TokenEndpoint.AdvanceToken(w, id, a).flights[id], g)
    ensures WasPast(w, TokenEndpoint.AdvanceToken(w, id, a), id, g)
  {
    hide ClaimCode, ClaimDevice, RotateToken, RevokeTokens, Mint, PermittedScopes, RefreshableScopes;
  }

  lemma StepPassesNone(w: World, step: Step, g: GrantKey)
    requires SnapshotInv(w) && IsRevoked(w, g)
    ensures OnlyOld(w, Apply(w, step), g)
  {
    hide TokenEndpoint.AdvanceToken, Consent.AdvanceConsent, PastCheck, Held;
    forall id | id in Apply(w, step).flights && PastCheck(Apply(w, step).flights[id], g)
      ensures WasPast(w, Apply(w, step), id, g)
    {
      if !step.Advance? {
        if id in w.flights { ArrivalKeepsFlights(w, step, id); } else { ArrivalPassesNone(w, step, id, g); }
        hide Apply;
      } else if step.flight in w.flights {
        if id != step.flight {
          AdvanceOthers(w, step.flight, step.answer, id);
          hide Apply;
        } else if IsConsentFlight(w.flights[id]) {
          ConsentPassesNone(w, id, step.answer, g);
        } else {
          RevokedFailsCheck(w, id, step.answer, g);
        }
      }
    }
  }

  lemma ArrivalPassesNone(w: World, step: Step, id: Hash, g: GrantKey)
    requires !step.Advance? && id in Apply(w, step).flights && id !in w.flights
    ensures !PastCheck(Apply(w, step).flights[id], g)
  {
  }

  lemma ConsentPassesNone(w: World, id: Hash, a: Answer, g: GrantKey)
    requires id in w.flights && IsConsentFlight(w.flights[id])
    requires id in Consent.AdvanceConsent(w, id, a).flights
    ensures !PastCheck(Consent.AdvanceConsent(w, id, a).flights[id], g)
  {
    hide Consent.ApproveConsent, Consent.EndConsent;
  }

  lemma {:induction false} RunPassesNone(w: World, run: seq<Step>, i: nat, n: nat, g: GrantKey)
    requires SnapshotInv(w) && i <= n <= |run|
    requires forall m: nat :: i <= m < n ==> IsRevoked(At(w, run, m), g)
    ensures OnlyOld(At(w, run, i), At(w, run, n), g)
  {
    hide Apply, PastCheck, SnapshotInv;
    if i < n {
      RunPassesNone(w, run, i, n - 1, g);
      RunKeepsSnapshots(w, run, n - 1);
      StepPassesNone(At(w, run, n - 1), run[n - 1], g);
    }
  }

  /** Who can respond for a grant while it is revoked. */
  lemma ResponseForRevoked(w: World, step: Step, x: Issued, g: GrantKey)
    requires TraceInv(w) && IsRevoked(w, g) && Apply(w, step).hist.issued == w.hist.issued + [x]
    requires g == GrantKey(x.user, x.client, x.resource)
    ensures step.Advance? && step.flight in w.flights && PastCheck(w.flights[step.flight], g)
    ensures !x.credential.FromDevice?
    ensures x.credential.FromRefresh? ==>
      w.flights[step.flight].RefreshRotate? && w.flights[step.flight].token == x.credential.token && Unclaimed(w.db.tokens, x.credential.token)
  {
    RespondsByAdvance(w, step);
    assert FlightOk(w.hist.facts, w.flights[step.flight]);
    assert x == Apply(w, step).hist.issued[|w.hist.issued|];
    Responder(w, step.flight, step.answer);
    hide Apply, MintedOk, StemsFrom;
  }

  /** Who responds, for whom and under which condition of the tables. */
  lemma Responder(w: World, id: Hash, a: Answer)
    requires id in w.flights && !IsConsentFlight(w.flights[id])
    ensures |Apply(w, Advance(id, a)).hist.issued| > |w.hist.issued| ==>
      var f, x := w.flights[id], Apply(w, Advance(id, a)).hist.issued[|w.hist.issued|];
      match f
      case CodeClaim(code, e, _) => x.credential == FromCode(code) && x.user == e.user && x.client == e.client && x.resource == e.resource
      case RefreshRotate(h, e, _, _) =>
        x.credential == FromRefresh(h) && x.user == e.user && x.client == e.client && x.resource == e.resource && Unclaimed(w.db.tokens, h)
      case DeviceClaim(d, e, user, _) =>
        x.credential == FromDevice(d) && !IsRevoked(w, GrantKey(x.user, x.client, x.resource))
      case _ => false
  {
    hide Mint, NewToken, RotateToken, RevokeTokens, PermittedScopes, RefreshableScopes;
  }

  /** The step is the last of a code exchange that was past its check for `g` in `before` already. */
  predicate OldExchange(before: World, w: World, step: Step, g: GrantKey) {
    && step.Advance?
    && step.flight in before.flights && PastCheck(before.flights[step.flight], g)
    && step.flight in w.flights && w.flights[step.flight].CodeClaim?
  }

  /** While a grant stays revoked, with every refresh token it had at the revocation revoked
      too, the only token responses it yields are code exchanges that were in flight at the
      revocation and had passed their grant check then. */
  lemma RevokedGrantYieldsOnlyOldExchanges(now: Time, reg: Registry, run: seq<Step>, i: nat, n: nat, g: GrantKey, x: Issued)
      returns (k: nat)
    requires i <= n <= |run|
    requires forall m: nat :: i <= m < n ==> IsRevoked(At(Init(now, reg), run, m), g)
    requires forall h :: h in TokensOfGrant(At(Init(now, reg), run, i).db.tokens, g) ==> At(Init(now, reg), run, i).db.tokens[h].revokedAt.Some?
    requires x in At(Init(now, reg), run, n).hist.issued && x !in At(Init(now, reg), run, i).hist.issued
    requires g == GrantKey(x.user, x.client, x.resource)
    ensures x.credential.FromCode?
    ensures i <= k < n && RespondsAt(Init(now, reg), run, k, x)
    ensures OldExchange(At(Init(now, reg), run, i), At(Init(now, reg), run, k), run[k], g)
  {
    var w := Init(now, reg);
    EmptyIsSound(now, reg);
    k := ResponseSince(w, run, i, n, x);
    RevokedResponder(w, run, i, k, g, x);
  }

  lemma ResponseSince(w: World, run: seq<Step>, i: nat, n: nat, x: Issued) returns (k: nat)
    requires i <= n <= |run| && x in At(w, run, n).hist.issued && x !in At(w, run, i).hist.issued
    ensures i <= k < n && RespondsAt(w, run, k, x)
  {
    hide Apply;
    ResponsesGrow(w, run, 0, i);
    k := ResponseStep(w, run, n, x);
    if k < i { ResponseStays(w, run, k + 1, i, x); }
  }

  lemma ResponseStays(w: World, run: seq<Step>, i: nat, n: nat, x: Issued)
    requires i <= n <= |run| && x in At(w, run, i).hist.issued
    ensures x in At(w, run, n).hist.issued
  {
    hide Apply;
    ResponsesGrow(w, run, i, n);
    var k :| 0 <= k < |At(w, run, i).hist.issued| && At(w, run, i).hist.issued[k] == x;
    assert At(w, run, n).hist.issued[k] == x;
  }

  lemma RevokedResponder(w: World, run: seq<Step>, i: nat, k: nat, g: GrantKey, x: Issued)
    requires SnapshotInv(w) && TraceInv(w) && i <= k < |run|
    requires forall m: nat :: i <= m <= k ==> IsRevoked(At(w, run, m), g)
    requires forall h :: h in TokensOfGrant(At(w, run, i).db.tokens, g) ==> At(w, run, i).db.tokens[h].revokedAt.Some?
    requires RespondsAt(w, run, k, x) && g == GrantKey(x.user, x.client, x.resource)
    ensures x.credential.FromCode? && OldExchange(At(w, run, i), At(w, run, k), run[k], g)
  {
    hide Apply, TraceInv, SnapshotInv;
    RunKeepsTrace(w, run, k);
    RunPassesNone(w, run, i, k, g);
    ResponseForRevoked(At(w, run, k), run[k], x, g);
    assert WasPast(At(w, run, i), At(w, run, k), run[k].flight, g);
    if x.credential.FromRefresh? {
      OldTokenIsDead(w, run, i, k, g, run[k].flight);
    }
    CodeResponder(At(w, run, k), run[k], x);
  }

  lemma CodeResponder(w: World, step: Step, x: Issued)
    requires TraceInv(w) && x.credential.FromCode? && Apply(w, step).hist.issued == w.hist.issued + [x]
    ensures step.Advance? && step.flight in w.flights && w.flights[step.flight].CodeClaim?
  {
    var _ := ResponseOfClaim(w, step, x);
  }

  /** A token of the grant drawn before the revocation is revoked in every later state. */
  lemma OldTokenIsDead(w: World, run: seq<Step>, i: nat, k: nat, g: GrantKey, id: Hash)
    requires SnapshotInv(w) && i <= k <= |run| && id in At(w, run, k).flights
    requires WasPast(At(w, run, i), At(w, run, k), id, g)
    requires At(w, run, k).flights[id].RefreshRotate?
    requires forall h :: h in TokensOfGrant(At(w, run, i).db.tokens, g) ==> At(w, run, i).db.tokens[h].revokedAt.Some?
    ensures !Unclaimed(At(w, run, k).db.tokens, Held(At(w, run, k).flights[id]).value.0)
  {
    hide Apply;
    var (h, e) := Held(At(w, run, k).flights[id]).value;
    RunKeepsSnapshots(w, run, i);
    RunKeepsSnapshots(w, run, k);
    assert Fits(TableOf(At(w, run, i)), At(w, run, i).flights[id]);
    assert Fits(TableOf(At(w, run, k)), At(w, run, k).flights[id]);
    if h in At(w, run, k).db.tokens {
      GrantNeverChanges(w, run, i, k, h);
      if h in At(w, run, i).db.tokens {
        assert h in TokensOfGrant(At(w, run, i).db.tokens, g);
      }
      RunIsOps(w, run, i);
      RunIsOps(w, run, k);
      TokenChains.DeadForever(TableOf(w), Ops(w, run), i, k, h);
    }
  }

  lemma {:induction false} GrantNeverChanges(w: World, run: seq<Step>, i: nat, k: nat, h: Hash)
    requires SnapshotInv(w) && i <= k <= |run| && h < At(w, run, i).next && h in At(w, run, k).db.tokens
    ensures h in At(w, run, i).db.tokens && At(w, run, i).db.tokens[h].grant == At(w, run, k).db.tokens[h].grant
  {
    hide Apply;
    if i < k {
      RunKeepsSnapshots(w, run, k - 1);
      NextGrows(w, run, i, k - 1);
      StepIsOp(At(w, run, k - 1), run[k - 1]);
      OpKeepsGrant(TableOf(At(w, run, k - 1)), OpOf(At(w, run, k - 1), run[k - 1]), h);
      GrantNeverChanges(w, run, i, k - 1, h);
    }
  }

  lemma OpKeepsGrant(t: TokenChains.Table, op: TokenChains.Op, h: Hash)
    requires h < t.next && h in TokenChains.ApplyOp(t, op).rows
    ensures h in t.rows && t.rows[h].grant == TokenChains.ApplyOp(t, op).rows[h].grant
  {
  }
}
