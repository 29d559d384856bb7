/** What the whole server, under any interleaving of requests, does to refresh-token
    chains: its steps are the operations of TokenChains, so the chain and revocation
    theorems hold in every reachable state. */
module ProtocolChains {
  import opened Basics
  import opened ResourceRegistry
  import opened Tables
  import opened World
  import opened Protocol
  import opened TokenChains
  import TokenEndpoint
  import Consent

  function TableOf(w: World): Table {
    Table(w.db.tokens, w.next)
  }

  function Drawn(w: World, step: Step): Op {
    var d := Apply(w, step).next - w.next;
    Draw(if d < 0 then 0 else d)
  }

  /** The operation on the refresh-token table that a step performs. */
  function OpOf(w: World, step: Step): Op {
    match step
    case RevokeGrant(key) => if key in w.db.grants then Op.Revoke(TokensOfGrant(w.db.tokens, key), w.now) else Draw(0)
    case DenyClients(clients) =>
      var keys := set k | k in w.db.grants && w.db.grants[k].revokedAt.None? && k.client in clients;
      Op.Revoke((set h | h in w.db.tokens && w.db.tokens[h].grant in keys), w.now)
    case RemoveServer(resource) => Op.Revoke((set h | h in w.db.tokens && w.db.tokens[h].resource == resource), w.now)
    case DeactivateUser(user) => Op.Revoke((set h | h in w.db.tokens && w.db.tokens[h].user == user), w.now)
    case Prune(table, cutoff) => if table == Tokens && cutoff <= w.now then Op.Prune(cutoff) else Draw(0)
    case Advance(id, a) => if id in w.flights then AdvanceOp(w, w.flights[id], a, step) else Draw(0)
    case _ => Drawn(w, step)
  }

  function AdvanceOp(w: World, f: Flight, a: Answer, step: Step): Op {
    match f
    case CodeClaim(code, e, m) =>
      if a.ok && ClaimCode(w.db, code, e, w.reg, w.next, w.now).1 == Claimed(Some(w.next))
      then Issue(NewToken(w.reg, e.user, e.client, e.resource, e.scopes, e.grant, e.via, w.now)) else Drawn(w, step)
    case DeviceClaim(d, e, user, m) =>
      if a.ok && ClaimDevice(w.db, d, e, user, w.reg, w.next, w.now).1 == Claimed(Some(w.next))
      then Issue(NewToken(w.reg, user, e.client, e.resource, e.scopes, GrantKey(user, e.client, e.resource), e.via, w.now)) else Drawn(w, step)
    case RefreshRotate(h, e, scopes, m) => if a.ok then Rotate(h, scopes) else Draw(0)
    case Revoking(g) => Op.Revoke(TokensOfGrant(w.db.tokens, g), w.now)
    case _ => Drawn(w, step)
  }

  /** The refresh token a flight is redeeming, with the row as it read it. */
  function Held(f: Flight): Option<(Hash, RefreshToken)> {
    match f
    case RefreshAuth(h, e, _) => Some((h, e))
    case RefreshGrant(h, e) => Some((h, e))
    case RefreshUser(h, e, _) => Some((h, e))
    case RefreshScopes(h, e, _, _) => Some((h, e))
    case RefreshRotate(h, e, _, _) => Some((h, e))
    case _ => None
  }

  function HeldScopes(f: Flight): seq<string> {
    match f
    case RefreshScopes(_, _, _, kept) => kept
    case RefreshRotate(_, _, scopes, _) => scopes
    case _ => []
  }

  predicate SameData(a: RefreshToken, b: RefreshToken) {
    a == b.(rotatedTo := a.rotatedTo, revokedAt := a.revokedAt)
  }

  /** A snapshot a flight holds still agrees with its row, if there is one. */
  ghost predicate Fits(t: Table, f: Flight) {
    Held(f).Some? ==>
      var (h, e) := Held(f).value;
      && h < t.next
      && (h in t.rows ==> SameData(e, t.rows[h]))
      && forall s :: s in HeldScopes(f) ==> s in e.scopes
  }

  ghost predicate SnapshotInv(w: World) {
    && ChainInv(TableOf(w))
    && (forall id :: id in w.flights ==> id < w.next && Fits(TableOf(w), w.flights[id]))
  }

  lemma OpKeepsFits(t: Table, op: Op, f: Flight)
    requires Fits(t, f)
    ensures Fits(ApplyOp(t, op), f)
  {
  }

  lemma AdvanceTokenIsOp(w: World, id: Hash, a: Answer)
    requires SnapshotInv(w) && id in w.flights && !IsConsentFlight(w.flights[id])
    ensures TableOf(Apply(w, Advance(id, a))) == ApplyOp(TableOf(w), OpOf(w, Advance(id, a)))
    ensures Legal(TableOf(w), OpOf(w, Advance(id, a)))
  {
    assert Fits(TableOf(w), w.flights[id]);
    hide Mint, NewToken;
    TokenStepDb(w, id, a);
    hide TokenEndpoint.AdvanceToken;
  }

  lemma ConsentLeavesTokens(w: World, id: Hash, a: Answer)
    requires id in w.flights && IsConsentFlight(w.flights[id])
    ensures Apply(w, Advance(id, a)).db.tokens == w.db.tokens
    ensures Apply(w, Advance(id, a)).next >= w.next
  {
  }

  lemma StartLeavesTokens(w: World, step: Step)
    requires !step.Advance? && !OpOf(w, step).Revoke? && !step.Prune?
    ensures Apply(w, step).db.tokens == w.db.tokens
    ensures Apply(w, step).next >= w.next
  {
  }

  /** Every step of the server is one operation on the refresh-token table. */
  lemma StepIsOp(w: World, step: Step)
    requires SnapshotInv(w)
    ensures TableOf(Apply(w, step)) == ApplyOp(TableOf(w), OpOf(w, step))
    ensures Legal(TableOf(w), OpOf(w, step))
  {
    if step.Advance? && step.flight in w.flights {
      if IsConsentFlight(w.flights[step.flight]) {
        ConsentLeavesTokens(w, step.flight, step.answer);
        hide Apply;
      } else {
        AdvanceTokenIsOp(w, step.flight, step.answer);
      }
    } else if !OpOf(w, step).Revoke? && !step.Prune? && !step.Advance? {
      StartLeavesTokens(w, step);
      hide Apply;
    } else if !step.Advance? {
      EnvironmentIsOp(w, step);
      hide Apply, OpOf;
    }
  }

  lemma EnvironmentIsOp(w: World, step: Step)
    requires !step.Advance? && (OpOf(w, step).Revoke? || step.Prune?)
    ensures TableOf(Apply(w, step)) == ApplyOp(TableOf(w), OpOf(w, step))
    ensures Legal(TableOf(w), OpOf(w, step))
  {
  }

  lemma AdvanceTokenFits(w: World, id: Hash, a: Answer)
    requires SnapshotInv(w) && id in w.flights && !IsConsentFlight(w.flights[id])
    requires id in Apply(w, Advance(id, a)).flights
    ensures Fits(TableOf(w), Apply(w, Advance(id, a)).flights[id])
  {
    assert Fits(TableOf(w), w.flights[id]);
    hide Mint, ClaimCode, ClaimDevice, RotateToken, RevokeTokens, ChainInv;
  }

  lemma AdvanceOthers(w: World, id: Hash, a: Answer, other: Hash)
    requires id in w.flights && other != id && other in Apply(w, Advance(id, a)).flights
    ensures other in w.flights && Apply(w, Advance(id, a)).flights[other] == w.flights[other]
  {
    if IsConsentFlight(w.flights[id]) {
      ConsentOthers(w, id, a, other);
    }
  }

  lemma ConsentOthers(w: World, id: Hash, a: Answer, other: Hash)
    requires id in w.flights && IsConsentFlight(w.flights[id]) && other != id && other in Apply(w, Advance(id, a)).flights
    ensures other in w.flights && Apply(w, Advance(id, a)).flights[other] == w.flights[other]
  {
  }

  lemma AdvanceConsentHolds(w: World, id: Hash, a: Answer)
    requires id in w.flights && IsConsentFlight(w.flights[id])
    requires id in Apply(w, Advance(id, a)).flights
    ensures Held(Apply(w, Advance(id, a)).flights[id]).None?
  {
  }

  lemma StartFits(w: World, step: Step, id: Hash)
    requires SnapshotInv(w) && !step.Advance? && id in Apply(w, step).flights
    ensures if id in w.flights then Apply(w, step).flights[id] == w.flights[id]
            else id == w.next < Apply(w, step).next && Fits(TableOf(w), Apply(w, step).flights[id])
  {
    hide TokenEndpoint.Proves, RequestsFreshSignIn, RevokeGrants, RevokeOneGrant, PruneTable;
  }

  /** The flights after a step fit the table before it: old ones, or one whose snapshot was
      read just now. */
  lemma FlightsFit(w: World, step: Step, id: Hash)
    requires SnapshotInv(w) && id in Apply(w, step).flights
    ensures id < Apply(w, step).next
    ensures Fits(TableOf(w), Apply(w, step).flights[id])
  {
    StepIsOp(w, step);
    if step.Advance? && step.flight in w.flights {
      if id != step.flight {
        AdvanceOthers(w, step.flight, step.answer, id);
      } else if IsConsentFlight(w.flights[id]) {
        AdvanceConsentHolds(w, id, step.answer);
      } else {
        AdvanceTokenFits(w, id, step.answer);
      }
    } else if step.Advance? {
    } else {
      StartFits(w, step, id);
    }
  }

  lemma StepKeepsSnapshots(w: World, step: Step)
    requires SnapshotInv(w)
    ensures SnapshotInv(Apply(w, step))
  {
    StepIsOp(w, step);
    StepKeepsChains(TableOf(w), OpOf(w, step));
    forall id | id in Apply(w, step).flights
      ensures id < Apply(w, step).next && Fits(TableOf(Apply(w, step)), Apply(w, step).flights[id])
    {
      FlightsFit(w, step, id);
      OpKeepsFits(TableOf(w), OpOf(w, step), Apply(w, step).flights[id]);
    }
  }

  // ---------------------------------------------------------------- runs

  /** The table operations of a run. */
  ghost function Ops(w: World, run: seq<Step>): (ops: seq<Op>)
    ensures |ops| == |run|
    ensures forall i {:trigger ops[i]} :: 0 <= i < |run| ==> ops[i] == OpOf(At(w, run, i), run[i])
  {
    seq(|run|, i requires 0 <= i < |run| => OpOf(At(w, run, i), run[i]))
  }

  /** The chain invariant and the in-flight snapshots hold in every state of every run. */
  lemma {:induction false} RunKeepsSnapshots(w: World, run: seq<Step>, n: nat)
    requires SnapshotInv(w) && n <= |run|
    ensures SnapshotInv(At(w, run, n))
  {
    if n > 0 {
      RunKeepsSnapshots(w, run, n - 1);
      StepKeepsSnapshots(At(w, run, n - 1), run[n - 1]);
    }
  }

  lemma {:induction false} RunIsOps(w: World, run: seq<Step>, n: nat)
    requires SnapshotInv(w) && n <= |run|
    ensures TableAt(TableOf(w), Ops(w, run), n) == TableOf(At(w, run, n))
  {
    hide Apply, ApplyOp, OpOf;
    if n > 0 {
      RunIsOps(w, run, n - 1);
      RunKeepsSnapshots(w, run, n - 1);
      StepIsOp(At(w, run, n - 1), run[n - 1]);
      assert TableAt(TableOf(w), Ops(w, run), n) == ApplyOp(TableAt(TableOf(w), Ops(w, run), n - 1), Ops(w, run)[n - 1]);
    }
  }

  lemma RunIsLegal(w: World, run: seq<Step>)
    requires SnapshotInv(w)
    ensures LegalRun(TableOf(w), Ops(w, run))
  {
    forall i: nat | i < |run| ensures LegalAt(TableOf(w), Ops(w, run), i) {
      RunIsOps(w, run, i);
      RunKeepsSnapshots(w, run, i);
      StepIsOp(At(w, run, i), run[i]);
    }
  }

  // ---------------------------------------------------------------- token responses

  lemma AdvanceTokenResponds(w: World, id: Hash, a: Answer)
    requires id in w.flights && !IsConsentFlight(w.flights[id])
    ensures w.hist.issued <= Apply(w, Advance(id, a)).hist.issued
    ensures |Apply(w, Advance(id, a)).hist.issued| <= |w.hist.issued| + 1
    ensures |Apply(w, Advance(id, a)).hist.issued| > |w.hist.issued| ==>
      var x := Apply(w, Advance(id, a)).hist.issued[|w.hist.issued|];
      && (x.credential.FromRefresh? ==> Redeems(TableOf(w), OpOf(w, Advance(id, a)), x.credential.token))
      && (x.credential.FromCode? ==> w.flights[id].CodeClaim? && w.flights[id].code == x.credential.code)
      && (x.credential.FromDevice? ==> w.flights[id].DeviceClaim? && w.flights[id].device == x.credential.device)
  {
  }

  lemma StepResponds(w: World, step: Step)
    ensures w.hist.issued <= Apply(w, step).hist.issued
    ensures |Apply(w, step).hist.issued| <= |w.hist.issued| + 1
    ensures |Apply(w, step).hist.issued| > |w.hist.issued| ==>
      var x := Apply(w, step).hist.issued[|w.hist.issued|];
      x.credential.FromRefresh? ==> Redeems(TableOf(w), OpOf(w, step), x.credential.token)
  {
    if step.Advance? && step.flight in w.flights {
      if IsConsentFlight(w.flights[step.flight]) {
        ConsentRespondsNothing(w, step.flight, step.answer);
      } else {
        AdvanceTokenResponds(w, step.flight, step.answer);
      }
    }
  }

  lemma ConsentRespondsNothing(w: World, id: Hash, a: Answer)
    requires id in w.flights && IsConsentFlight(w.flights[id])
    ensures Apply(w, Advance(id, a)).hist.issued == w.hist.issued
  {
  }

  // ---------------------------------------------------------------- revocation, over runs

  /** The refresh tokens a step revokes. */
  function RevokedBy(w: World, step: Step): set<Hash> {
    var op := OpOf(w, step);
    if op.Revoke? then set h | h in w.db.tokens && h in op.selected else {}
  }

  /** A refresh token that a step revoked (for a replayed code, a reused token, at the
      client's or the user's wish, by a denial, the removal of its server or the deactivation
      of its user) is redeemed by no later token response, however the requests interleave. */
  lemma {:induction false} RevokedTokenNeverRedeemed(w: World, run: seq<Step>, i: nat, n: nat, h: Hash, x: Issued)
    requires SnapshotInv(w) && i < n <= |run|
    requires h in RevokedBy(At(w, run, i), run[i])
    requires |At(w, run, i).hist.issued| <= |At(w, run, n).hist.issued|
    requires x in At(w, run, n).hist.issued[|At(w, run, i).hist.issued|..]
    ensures x.credential != FromRefresh(h)
  {
    hide Apply, OpOf, RevokedBy, SnapshotInv;
    var start := |At(w, run, i).hist.issued|;
    var before, after := At(w, run, n - 1), At(w, run, n);
    StepResponds(before, run[n - 1]);
    ResponsesGrow(w, run, i, n - 1);
    if i < n - 1 && x in before.hist.issued[start..] {
      RevokedTokenNeverRedeemed(w, run, i, n - 1, h, x);
    } else {
      assert after.hist.issued[start..] == before.hist.issued[start..] + after.hist.issued[|before.hist.issued|..];
      NotRedeemedAt(w, run, i, n - 1, h);
    }
  }

  lemma NotRedeemedAt(w: World, run: seq<Step>, i: nat, k: nat, h: Hash)
    requires SnapshotInv(w) && i <= k < |run| && h in RevokedBy(At(w, run, i), run[i])
    ensures !Redeems(TableOf(At(w, run, k)), OpOf(At(w, run, k), run[k]), h)
  {
    hide Apply, ApplyOp, OpOf;
    if i < k {
      RunIsOps(w, run, i);
      RunIsOps(w, run, k);
      RunKeepsSnapshots(w, run, i);
      RevokedNeverRedeemed(TableOf(w), Ops(w, run), i, k, h);
    }
  }

  lemma {:induction false} ResponsesGrow(w: World, run: seq<Step>, i: nat, n: nat)
    requires i <= n <= |run|
    ensures At(w, run, i).hist.issued <= At(w, run, n).hist.issued
  {
    hide Apply;
    if i < n {
      ResponsesGrow(w, run, i, n - 1);
      StepResponds(At(w, run, n - 1), run[n - 1]);
    }
  }

  /** The step is a code exchange or a device-code claim for `grant` whose response carries
      the new refresh token `root`. */
  ghost predicate ClaimsFor(w: World, step: Step, grant: GrantKey, root: Hash) {
    && step.Advance? && step.flight in w.flights
    && (w.flights[step.flight].CodeClaim? || w.flights[step.flight].DeviceClaim?)
    && |Apply(w, step).hist.issued| == |w.hist.issued| + 1
    && var x := Apply(w, step).hist.issued[|w.hist.issued|];
    && x.refresh == Some(root)
    && root in Apply(w, step).db.tokens
    && Apply(w, step).db.tokens[root].grant == grant
  }

  lemma IssueIsClaim(w: World, step: Step)
    requires OpOf(w, step).Issue?
    ensures ClaimsFor(w, step, OpOf(w, step).token.grant, w.next)
  {
  }

  /** After a step revoked all of a grant's refresh tokens, each of the grant's tokens that
      is live later descends from one that a code or device-code claim committed since. */
  lemma LiveTokensDescendFromLaterClaims(w: World, run: seq<Step>, i: nat, n: nat, grant: GrantKey, h: Hash)
      returns (root: Hash, k: nat)
    requires SnapshotInv(w) && i < n <= |run|
    requires TokensOfGrant(At(w, run, i).db.tokens, grant) <= RevokedBy(At(w, run, i), run[i])
    requires OpOf(At(w, run, i), run[i]).Revoke?
    requires h in At(w, run, n).db.tokens && At(w, run, n).db.tokens[h].grant == grant
    requires At(w, run, n).db.tokens[h].revokedAt.None?
    ensures Reaches(At(w, run, n).db.tokens, root, h)
    ensures i < k < n && ClaimsFor(At(w, run, k), run[k], grant, root)
  {
    RunIsLegal(w, run);
    RunIsOps(w, run, i);
    RunIsOps(w, run, n);
    root, k := LiveTokensAreNewlyIssued(TableOf(w), Ops(w, run), i, n, grant, h);
    RunIsOps(w, run, k);
    IssueIsClaim(At(w, run, k), run[k]);
  }
}
