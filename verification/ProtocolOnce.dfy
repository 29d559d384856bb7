/** Single use: every authorization request completes at most once, and every code, device
    code and refresh token is redeemed by at most one token response. */
module ProtocolOnce {
  import opened Basics
  import opened ResourceRegistry
  import opened Tables
  import opened World
  import opened Protocol
  import TokenEndpoint
  import Consent

  ghost predicate Bounded(w: World) {
    && (forall h :: h in w.db.requests ==> h < w.next)
    && (forall h :: h in w.db.codes ==> h < w.next)
    && (forall h :: h in w.db.devices ==> h < w.next && w.db.devices[h].userCode < w.next)
    && (forall h :: h in w.db.tokens ==> h < w.next)
  }

  function Drawn(c: Credential): Hash {
    match c
    case FromCode(h) => h
    case FromDevice(h) => h
    case FromRefresh(h) => h
  }

  /** The credential is gone, or its row records the redemption. */
  predicate Spent(db: Db, c: Credential) {
    match c
    case FromCode(h) => h in db.codes ==> db.codes[h].consumedAt.Some?
    case FromDevice(h) => h in db.devices ==> db.devices[h].status == Consumed
    case FromRefresh(h) => h in db.tokens ==> db.tokens[h].rotatedTo.Some?
  }

  ghost predicate ResponsesSpent(db: Db, next: Hash, issued: seq<Issued>) {
    forall x :: x in issued ==> Drawn(x.credential) < next && Spent(db, x.credential)
  }

  ghost predicate DistinctCredentials(issued: seq<Issued>) {
    forall i, j :: 0 <= i < j < |issued| ==> issued[i].credential != issued[j].credential
  }

  ghost predicate CompletedOnce(w: World) {
    && (forall h :: h in w.hist.completed ==> h < w.next && h !in w.db.requests)
    && NoRepeats(w.hist.completed)
    && (forall a :: a in w.hist.facts.approved ==> a.handle in w.hist.completed)
    && (forall a, b :: a in w.hist.facts.approved && b in w.hist.facts.approved && a.handle == b.handle ==> a == b)
  }

  ghost predicate OwnUserCodes(db: Db) {
    forall d, e :: d in db.devices && e in db.devices && db.devices[d].userCode == db.devices[e].userCode ==> d == e
  }

  /** Every consumed code and every rotated refresh token was consumed by a response. */
  ghost predicate Accounted(db: Db, issued: seq<Issued>) {
    && (forall c :: c in db.codes && db.codes[c].consumedAt.Some? ==> Redeemed(issued, FromCode(c)))
    && (forall h :: h in db.tokens && db.tokens[h].rotatedTo.Some? ==> Redeemed(issued, FromRefresh(h)))
  }

  ghost predicate Redeemed(issued: seq<Issued>, c: Credential) {
    exists x :: x in issued && x.credential == c
  }

  ghost predicate OnceInv(w: World) {
    && Bounded(w)
    && Accounted(w.db, w.hist.issued)
    && ResponsesSpent(w.db, w.next, w.hist.issued)
    && DistinctCredentials(w.hist.issued)
    && CompletedOnce(w)
    && OwnUserCodes(w.db)
  }

  /** What a step without a token response may do to the credentials: nothing spent comes
      back. */
  ghost predicate StaysSpent(db: Db, db': Db, next: Hash) {
    forall c: Credential :: Drawn(c) < next && Spent(db, c) ==> Spent(db', c)
  }

  lemma AdvanceTokenBounded(w: World, id: Hash, a: Answer)
    requires Bounded(w) && OwnUserCodes(w.db) && id in w.flights && !IsConsentFlight(w.flights[id])
    ensures Bounded(TokenEndpoint.AdvanceToken(w, id, a))
    ensures OwnUserCodes(TokenEndpoint.AdvanceToken(w, id, a).db)
    ensures TokenEndpoint.AdvanceToken(w, id, a).db.requests == w.db.requests
    ensures TokenEndpoint.AdvanceToken(w, id, a).next >= w.next
  {
    hide NewToken;
    TokenStepDb(w, id, a);
    hide TokenEndpoint.AdvanceToken;
  }

  lemma AdvanceTokenStaysSpent(w: World, id: Hash, a: Answer)
    requires Bounded(w) && id in w.flights && !IsConsentFlight(w.flights[id])
    ensures StaysSpent(w.db, TokenEndpoint.AdvanceToken(w, id, a).db, w.next)
  {
    hide NewToken;
    TokenStepDb(w, id, a);
    hide TokenEndpoint.AdvanceToken;
  }

  /** A response redeems a credential that was not spent and spends it. */
  lemma AdvanceTokenSpends(w: World, id: Hash, a: Answer)
    requires Bounded(w) && id in w.flights && !IsConsentFlight(w.flights[id])
    ensures var w' := TokenEndpoint.AdvanceToken(w, id, a);
      w'.hist.completed == w.hist.completed && w'.hist.facts == w.hist.facts &&
      (w'.hist.issued == w.hist.issued ||
       exists x :: w'.hist.issued == w.hist.issued + [x] && Drawn(x.credential) < w.next
                   && !Spent(w.db, x.credential) && Spent(w'.db, x.credential))
  {
    var w' := TokenEndpoint.AdvanceToken(w, id, a);
    if w'.hist.issued != w.hist.issued {
      var x := w'.hist.issued[|w.hist.issued|];
      assert w'.hist.issued == w.hist.issued + [x];
    }
  }

  lemma AdvanceTokenAccounts(w: World, id: Hash, a: Answer)
    requires Bounded(w) && Accounted(w.db, w.hist.issued) && id in w.flights && !IsConsentFlight(w.flights[id])
    ensures Accounted(TokenEndpoint.AdvanceToken(w, id, a).db, TokenEndpoint.AdvanceToken(w, id, a).hist.issued)
  {
    AdvanceTokenSpends(w, id, a);
    MoreResponses(w.hist.issued, TokenEndpoint.AdvanceToken(w, id, a).hist.issued);
    NewlySpent(w, id, a);
    hide TokenEndpoint.AdvanceToken, Redeemed;
  }

  /** A code or token newly consumed or rotated is the one the step's response redeemed. */
  lemma NewlySpent(w: World, id: Hash, a: Answer)
    requires id in w.flights && !IsConsentFlight(w.flights[id])
    ensures var w' := TokenEndpoint.AdvanceToken(w, id, a);
      && w.hist.issued <= w'.hist.issued
      && (forall c :: c in w'.db.codes && w'.db.codes[c].consumedAt.Some? ==>
            (c in w.db.codes && w.db.codes[c].consumedAt.Some?) || Redeemed(w'.hist.issued, FromCode(c)))
      && (forall h :: h in w'.db.tokens && w'.db.tokens[h].rotatedTo.Some? ==>
            (h in w.db.tokens && w.db.tokens[h].rotatedTo.Some?) || Redeemed(w'.hist.issued, FromRefresh(h)))
  {
    TokenStepDb(w, id, a);
    SpendingResponds(w, id, a);
    hide TokenEndpoint.AdvanceToken, Redeemed, Mint;
  }

  /** A step that can consume a code or rotate a token answers with it. */
  lemma SpendingResponds(w: World, id: Hash, a: Answer)
    requires id in w.flights && !IsConsentFlight(w.flights[id])
    ensures var f, w' := w.flights[id], TokenEndpoint.AdvanceToken(w, id, a);
      && w.hist.issued <= w'.hist.issued
      && (f.CodeClaim? && a.ok && f.code in w.db.codes && w.db.codes[f.code].consumedAt.None? ==> Redeemed(w'.hist.issued, FromCode(f.code)))
      && (f.RefreshRotate? && a.ok && Unclaimed(w.db.tokens, f.token) ==> Redeemed(w'.hist.issued, FromRefresh(f.token)))
  {
    var w' := TokenEndpoint.AdvanceToken(w, id, a);
    if |w'.hist.issued| > |w.hist.issued| {
      assert w'.hist.issued[|w.hist.issued|] in w'.hist.issued;
    }
    hide Mint, NewToken, PermittedScopes, RefreshableScopes, RotateToken, RevokeTokens, ClaimDevice;
  }

  lemma MoreResponses(a: seq<Issued>, b: seq<Issued>)
    ensures a <= b ==> forall c :: Redeemed(a, c) ==> Redeemed(b, c)
  {
    if a <= b {
      forall c | Redeemed(a, c) ensures Redeemed(b, c) {
        var x :| x in a && x.credential == c;
        assert x in b;
      }
    }
  }

  lemma AdvanceTokenOnce(w: World, id: Hash, a: Answer)
    requires OnceInv(w) && id in w.flights && !IsConsentFlight(w.flights[id])
    ensures OnceInv(TokenEndpoint.AdvanceToken(w, id, a))
  {
    hide TokenEndpoint.AdvanceToken, Spent;
    AdvanceTokenBounded(w, id, a);
    AdvanceTokenStaysSpent(w, id, a);
    AdvanceTokenSpends(w, id, a);
    AdvanceTokenAccounts(w, id, a);
  }

  lemma ConsentKeeps(w: World, id: Hash, a: Answer)
    requires OnceInv(w) && id in w.flights && (w.flights[id].ConsentLoaded? || w.flights[id].ConsentGroups? || w.flights[id].ConsentPin? || w.flights[id].EnteredCode?)
    ensures OnceInv(Consent.AdvanceConsent(w, id, a))
  {
    hide DistinctCredentials, Redeemed, FirstForbidden, RequestsFreshSignIn;
  }

  lemma DeviceCompletion(db: Db, handle: Hash, req: AuthRequest, userCode: Hash, granting: Option<(string, Server)>, reg: Registry, now: Time)
    ensures var (db', outcome) := CompleteDevice(db, handle, req, userCode, granting, reg, now);
      && (outcome == Completed ==> handle in db.requests)
      && db'.requests == db.requests - {handle} && db'.codes == db.codes && db'.tokens == db.tokens
      && db'.devices.Keys == db.devices.Keys
      && (forall d :: d in db.devices ==> db'.devices[d].userCode == db.devices[d].userCode)
      && (forall d :: d in db.devices && db.devices[d].status == Consumed ==> db'.devices[d] == db.devices[d])
  {
  }

  lemma EndOnce(w: World, id: Hash, handle: Hash, req: AuthRequest)
    requires OnceInv(w) && id in w.flights
    ensures OnceInv(Consent.EndConsent(w, id, handle, req))
  {
    hide CompleteDevice, DistinctCredentials, Redeemed;
    if req.userCode.Some? { DeviceCompletion(w.db, handle, req, req.userCode.value, None, w.reg, w.now); }
  }

  lemma ApproveDeviceOnce(w: World, id: Hash, handle: Hash, req: AuthRequest, server: Server)
    requires OnceInv(w) && id in w.flights && req.flow == DeviceFlow
    ensures OnceInv(Consent.ApproveConsent(w, id, handle, req, server))
  {
    hide DistinctCredentials, Redeemed, CompleteDevice, ApproveRedirect;
    if req.subject.Some? && req.userCode.Some? {
      DeviceCompletion(w.db, handle, req, req.userCode.value, Some((req.subject.value, server)), w.reg, w.now);
    }
  }

  lemma ApproveOnce(w: World, id: Hash, handle: Hash, req: AuthRequest, server: Server)
    requires OnceInv(w) && id in w.flights
    ensures OnceInv(Consent.ApproveConsent(w, id, handle, req, server))
  {
    hide DistinctCredentials, Redeemed, MergedGrant, CompleteDevice;
    if req.flow == DeviceFlow {
      ApproveDeviceOnce(w, id, handle, req, server);
      hide OnceInv, Consent.ApproveConsent;
    }
  }

  lemma AdvanceConsentOnce(w: World, id: Hash, a: Answer)
    requires OnceInv(w) && id in w.flights && IsConsentFlight(w.flights[id])
    ensures OnceInv(Consent.AdvanceConsent(w, id, a))
  {
    match w.flights[id]
    case ConsentApprove(handle, req, server) =>
      if a.ok { ApproveOnce(w, id, handle, req, server); }
      hide OnceInv;
    case ConsentEnd(handle, req) => EndOnce(w, id, handle, req); hide OnceInv;
    case _ => ConsentKeeps(w, id, a);
  }

  /** Rows may go, and refresh tokens may be revoked; nothing else changes. */
  ghost predicate Shrinks(db: Db, db': Db) {
    && (forall h :: h in db'.requests ==> h in db.requests)
    && (forall h :: h in db'.codes ==> h in db.codes && db'.codes[h] == db.codes[h])
    && (forall h :: h in db'.devices ==> h in db.devices && db'.devices[h] == db.devices[h])
    && (forall h :: h in db'.tokens ==> h in db.tokens && db'.tokens[h].rotatedTo == db.tokens[h].rotatedTo)
  }

  lemma PruneShrinks(db: Db, table: Pruned, cutoff: Time)
    ensures Shrinks(db, PruneTable(db, table, cutoff))
  {
  }

  lemma RevocationShrinks(db: Db, keys: set<GrantKey>, tokens: set<Hash>, now: Time)
    ensures Shrinks(db, RevokeGrants(db, keys, tokens, now))
  {
  }

  lemma EnvironmentShrinks(w: World, step: Step)
    requires step.RevokeGrant? || step.DenyClients? || step.RemoveServer? || step.DeactivateUser? || step.Prune?
    ensures Apply(w, step) == w.(db := Apply(w, step).db) && Shrinks(w.db, Apply(w, step).db)
  {
    hide Consent.AdvanceConsent, TokenEndpoint.AdvanceToken;
    match step
    case Prune(table, cutoff) =>
      PruneShrinks(w.db, table, cutoff);
      hide PruneTable;
    case DenyClients(clients) =>
      var keys := set k | k in w.db.grants && w.db.grants[k].revokedAt.None? && k.client in clients;
      RevocationShrinks(w.db, keys, (set h | h in w.db.tokens && w.db.tokens[h].grant in keys), w.now);
      hide RevokeGrants, Shrinks;
    case RemoveServer(resource) =>
      var keys := set k | k in w.db.grants && k.resource == resource;
      RevocationShrinks(w.db, keys, (set h | h in w.db.tokens && w.db.tokens[h].resource == resource), w.now);
      hide RevokeGrants, Shrinks;
    case DeactivateUser(user) =>
      var keys := set k | k in w.db.grants && k.user == user;
      RevocationShrinks(w.db, keys, (set h | h in w.db.tokens && w.db.tokens[h].user == user), w.now);
      hide RevokeGrants, Shrinks;
    case RevokeGrant(key) =>
  }

  lemma ShrinkingOnce(w: World, db': Db)
    requires OnceInv(w) && Shrinks(w.db, db')
    ensures OnceInv(w.(db := db'))
  {
    hide DistinctCredentials, Redeemed;
    forall x | x in w.hist.issued ensures Spent(db', x.credential) {
      assert Spent(w.db, x.credential);
    }
  }

  lemma ArrivalLeavesRows(w: World, step: Step)
    requires step.LoadConsent? || step.DenyConsent? || step.EnterUserCode? || step.Exchange? || step.Refresh? || step.Poll? || step.Revoke? || step.Tick? || step.ReloadRegistry?
    ensures var w' := Apply(w, step);
            w'.db == w.db && w'.hist == w.hist && w'.next >= w.next
  {
  }

  lemma UnchangedOnce(w: World, w': World)
    requires OnceInv(w) && w'.db == w.db && w'.hist == w.hist && w'.next >= w.next
    ensures OnceInv(w')
  {
    hide DistinctCredentials, Redeemed, Spent;
  }

  lemma CreationOnce(w: World, step: Step)
    requires OnceInv(w) && (step.Authorize? || step.SignIn? || step.NewDeviceCode?)
    ensures OnceInv(Apply(w, step))
  {
    hide DistinctCredentials, Redeemed, RequestsFreshSignIn;
  }

  lemma StepKeepsOnce(w: World, step: Step)
    requires OnceInv(w)
    ensures OnceInv(Apply(w, step))
  {
    hide OnceInv;
    if step.Advance? {
      if step.flight in w.flights {
        if IsConsentFlight(w.flights[step.flight]) {
          AdvanceConsentOnce(w, step.flight, step.answer);
        } else {
          AdvanceTokenOnce(w, step.flight, step.answer);
        }
      }
      hide TokenEndpoint.AdvanceToken, Consent.AdvanceConsent;
    } else if step.RevokeGrant? || step.DenyClients? || step.RemoveServer? || step.DeactivateUser? || step.Prune? {
      EnvironmentShrinks(w, step);
      ShrinkingOnce(w, Apply(w, step).db);
      hide Apply;
    } else if step.Authorize? || step.SignIn? || step.NewDeviceCode? {
      CreationOnce(w, step);
      hide Apply;
    } else {
      ArrivalLeavesRows(w, step);
      UnchangedOnce(w, Apply(w, step));
      hide Apply;
    }
  }

  lemma {:induction false} RunKeepsOnce(w: World, run: seq<Step>, n: nat)
    requires OnceInv(w) && n <= |run|
    ensures OnceInv(At(w, run, n))
  {
    hide Apply, OnceInv;
    if n > 0 {
      RunKeepsOnce(w, run, n - 1);
      StepKeepsOnce(At(w, run, n - 1), run[n - 1]);
    }
  }
}
