/** One approval is worth one authorization: at most one code or device code, and at most
    one token response that is not a rotation, stems from it. */
module ProtocolApprovals {
  import opened Basics
  import opened ResourceRegistry
  import opened Tables
  import opened World
  import opened Protocol
  import opened ProtocolOnce
  import opened ProtocolChains
  import opened ProtocolTheorems
  import opened ProtocolTrace
  import TokenEndpoint
  import Consent

  predicate Names(via: Option<Approval>, handle: Hash) {
    via.Some? && via.value.handle == handle
  }

  /** The code or device code stems from the approval of request `handle`: its row says so,
      or a response that redeemed it does. */
  ghost predicate Bound(db: Db, issued: seq<Issued>, c: Credential, handle: Hash) {
    || (c.FromCode? && c.code in db.codes && Names(db.codes[c.code].via, handle))
    || (c.FromDevice? && c.device in db.devices && Names(db.devices[c.device].via, handle))
    || (!c.FromRefresh? && exists x :: x in issued && x.credential == c && Names(x.via, handle))
  }

  ghost predicate BoundOnce(w: World) {
    && (forall c, h :: Bound(w.db, w.hist.issued, c, h) ==> h in w.hist.completed)
    && (forall c, d, h :: Bound(w.db, w.hist.issued, c, h) && Bound(w.db, w.hist.issued, d, h) ==> c == d)
  }

  /** A flight's snapshot of a code or an approved device code names the row's approval. */
  predicate ViaFits(db: Db, next: Hash, f: Flight) {
    && (IsCodeFlight(f) ==> f.code < next && (f.code in db.codes ==> db.codes[f.code].via == f.codeEntry.via))
    && (IsDeviceFlight(f) ==> f.device < next)
    && (IsDeviceFlight(f) && f.device in db.devices ==> db.devices[f.device].via == f.deviceEntry.via && WasApproved(db.devices[f.device]))
  }

  predicate WasApproved(d: DeviceCode) {
    d.status == Approved || d.status == Consumed
  }

  predicate IsDeviceFlight(f: Flight) {
    f.DeviceAuth? || f.DeviceUser? || f.DeviceMint? || f.DeviceClaim?
  }

  ghost predicate ApprovalInv(w: World) {
    && OnceInv(w) && SnapshotInv(w) && BoundOnce(w)
    && forall id :: id in w.flights ==> ViaFits(w.db, w.next, w.flights[id])
  }

  /** Rows of codes and approved device codes keep their approval as long as they exist. */
  ghost predicate KeepsVia(db: Db, db': Db, next: Hash) {
    && (forall c :: c in db'.codes && c < next ==> c in db.codes && db'.codes[c].via == db.codes[c].via)
    && (forall d :: d in db'.devices && d < next ==> d in db.devices)
    && (forall d :: d in db'.devices && d in db.devices && WasApproved(db.devices[d]) ==> db'.devices[d].via == db.devices[d].via && WasApproved(db'.devices[d]))
  }

  lemma AdvanceTokenKeepsVia(w: World, id: Hash, a: Answer)
    requires Bounded(w) && id in w.flights && !IsConsentFlight(w.flights[id])
    ensures KeepsVia(w.db, TokenEndpoint.AdvanceToken(w, id, a).db, w.next)
  {
    TokenStepDb(w, id, a);
    hide TokenEndpoint.AdvanceToken;
    hide Mint, NewToken, RotateToken, RevokeTokens, PermittedScopes, RefreshableScopes;
  }

  lemma RowsBindNothing(w: World, f: Flight, a: Answer, c: Credential, h: Hash)
    requires ViaFits(w.db, w.next, f) && Bound(TokenDb(w, f, a), w.hist.issued, c, h)
    ensures Bound(w.db, w.hist.issued, c, h)
  {
    hide NewToken, RotateToken, RevokeTokens;
  }

  /** A response that redeems a code or device code names the approval of its row. */
  lemma ResponseBindsNothing(w: World, id: Hash, a: Answer, c: Credential, h: Hash)
    requires id in w.flights && !IsConsentFlight(w.flights[id]) && ViaFits(w.db, w.next, w.flights[id])
    ensures var issued := TokenEndpoint.AdvanceToken(w, id, a).hist.issued;
      || issued == w.hist.issued
      || (issued == w.hist.issued + [issued[|w.hist.issued|]]
          && (issued[|w.hist.issued|].credential == c && !c.FromRefresh? && Names(issued[|w.hist.issued|].via, h) ==> Bound(w.db, w.hist.issued, c, h)))
  {
    hide Mint, NewToken, RotateToken, RevokeTokens, PermittedScopes, RefreshableScopes;
  }

  lemma AdvanceTokenBinds(w: World, id: Hash, a: Answer, c: Credential, h: Hash)
    requires id in w.flights && !IsConsentFlight(w.flights[id]) && ViaFits(w.db, w.next, w.flights[id])
    requires Bound(TokenEndpoint.AdvanceToken(w, id, a).db, TokenEndpoint.AdvanceToken(w, id, a).hist.issued, c, h)
    ensures Bound(w.db, w.hist.issued, c, h)
  {
    hide TokenEndpoint.AdvanceToken, TokenDb, ViaFits;
    TokenStepDb(w, id, a);
    ResponseBindsNothing(w, id, a, c, h);
    if Bound(TokenDb(w, w.flights[id], a), w.hist.issued, c, h) { RowsBindNothing(w, w.flights[id], a, c, h); }
  }

  lemma AdvanceTokenViaFits(w: World, id: Hash, a: Answer)
    requires id in w.flights && !IsConsentFlight(w.flights[id]) && ViaFits(w.db, w.next, w.flights[id])
    requires id in TokenEndpoint.AdvanceToken(w, id, a).flights
    ensures ViaFits(w.db, w.next, TokenEndpoint.AdvanceToken(w, id, a).flights[id])
  {
    hide Mint, ClaimCode, ClaimDevice, RotateToken, RevokeTokens, PermittedScopes, RefreshableScopes;
  }

  lemma ViaStaysFit(db: Db, db': Db, next: Hash, next': Hash, f: Flight)
    requires ViaFits(db, next, f) && KeepsVia(db, db', next) && next <= next'
    ensures ViaFits(db', next', f)
  {
  }

  /** A step that binds nothing new. */
  lemma NothingBound(w: World, w': World)
    requires BoundOnce(w) && w.hist.completed <= w'.hist.completed
    requires forall c, h :: Bound(w'.db, w'.hist.issued, c, h) ==> Bound(w.db, w.hist.issued, c, h)
    ensures BoundOnce(w')
  {
    hide Bound;
  }

  lemma AdvanceIsStep(w: World, id: Hash, a: Answer)
    requires id in w.flights
    ensures Apply(w, Advance(id, a)) == if IsConsentFlight(w.flights[id]) then Consent.AdvanceConsent(w, id, a) else TokenEndpoint.AdvanceToken(w, id, a)
  {
  }

  lemma AdvanceTokenKeeps(w: World, id: Hash, a: Answer)
    requires ApprovalInv(w) && id in w.flights && !IsConsentFlight(w.flights[id])
    ensures ApprovalInv(TokenEndpoint.AdvanceToken(w, id, a))
  {
    hide TokenEndpoint.AdvanceToken, SnapshotInv, Bound, ViaFits, KeepsVia, Apply;
    var w' := TokenEndpoint.AdvanceToken(w, id, a);
    AdvanceIsStep(w, id, a);
    StepKeepsOnce(w, Advance(id, a));
    StepKeepsSnapshots(w, Advance(id, a));
    AdvanceTokenKeepsVia(w, id, a);
    AdvanceTokenFrame(w, id, a);
    AdvanceTokenSpends(w, id, a);
    forall c, h | Bound(w'.db, w'.hist.issued, c, h) ensures Bound(w.db, w.hist.issued, c, h) {
      AdvanceTokenBinds(w, id, a, c, h);
    }
    NothingBound(w, w');
    forall other | other in w'.flights ensures ViaFits(w'.db, w'.next, w'.flights[other]) {
      if other == id { AdvanceTokenViaFits(w, id, a); } else { SameAway(w.flights, w'.flights, id, other); }
      ViaStaysFit(w.db, w'.db, w.next, w'.next, w'.flights[other]);
    }
  }

  // ---------------------------------------------------------------- consent

  lemma DeviceVia(db: Db, handle: Hash, req: AuthRequest, userCode: Hash, granting: Option<(string, Server)>, reg: Registry, now: Time)
    ensures var db' := CompleteDevice(db, handle, req, userCode, granting, reg, now).0;
      && db'.codes == db.codes && db'.devices.Keys == db.devices.Keys
      && forall d :: d in db.devices ==>
           if WasApproved(db.devices[d]) then db'.devices[d] == db.devices[d]
           else db'.devices[d].via == db.devices[d].via || (handle in db.requests && db.devices[d].userCode == userCode && db'.devices[d].via == Some(Approval(handle, req)))
  {
    hide MergedGrant;
  }

  /** What approving `req` in `w` may bind: the code to be drawn, or the device code named
      by its user code. */
  predicate NewlyBound(w: World, req: AuthRequest, c: Credential) {
    match c
    case FromCode(code) => req.flow != DeviceFlow && code == w.next
    case FromDevice(d) => req.flow == DeviceFlow && req.userCode.Some? && d in w.db.devices && w.db.devices[d].userCode == req.userCode.value
    case FromRefresh(_) => false
  }

  lemma ApproveBinds(w: World, id: Hash, handle: Hash, req: AuthRequest, server: Server, c: Credential, h: Hash)
    requires var w' := Consent.ApproveConsent(w, id, handle, req, server); Bound(w'.db, w'.hist.issued, c, h)
    ensures Bound(w.db, w.hist.issued, c, h) || (h == handle && handle in w.db.requests && NewlyBound(w, req, c))
  {
    hide CompleteDevice, MergedGrant;
    if req.subject.Some? && req.flow == DeviceFlow && req.userCode.Some? {
      DeviceVia(w.db, handle, req, req.userCode.value, Some((req.subject.value, server)), w.reg, w.now);
    }
  }

  lemma ApproveCompletes(w: World, id: Hash, handle: Hash, req: AuthRequest, server: Server)
    ensures var w' := Consent.ApproveConsent(w, id, handle, req, server);
      w.hist.completed <= w'.hist.completed && KeepsVia(w.db, w'.db, w.next)
    ensures var w' := Consent.ApproveConsent(w, id, handle, req, server);
      forall c, h :: Bound(w'.db, w'.hist.issued, c, h) && !Bound(w.db, w.hist.issued, c, h) ==> h in w'.hist.completed
  {
    hide CompleteDevice, MergedGrant, Bound;
    if req.subject.Some? && req.flow == DeviceFlow && req.userCode.Some? {
      DeviceVia(w.db, handle, req, req.userCode.value, Some((req.subject.value, server)), w.reg, w.now);
    }
    var w' := Consent.ApproveConsent(w, id, handle, req, server);
    forall c, h | Bound(w'.db, w'.hist.issued, c, h) && !Bound(w.db, w.hist.issued, c, h) ensures h in w'.hist.completed {
      ApproveBinds(w, id, handle, req, server, c, h);
    }
  }

  /** Two new bindings of one approval are the same: user codes are unique. */
  lemma NewlyBoundOnce(w: World, req: AuthRequest, c: Credential, d: Credential)
    requires OwnUserCodes(w.db) && NewlyBound(w, req, c) && NewlyBound(w, req, d)
    ensures c == d
  {
  }

  lemma ApproveKeepsBound(w: World, id: Hash, handle: Hash, req: AuthRequest, server: Server)
    requires OnceInv(w) && BoundOnce(w)
    ensures BoundOnce(Consent.ApproveConsent(w, id, handle, req, server))
  {
    hide Consent.ApproveConsent, Bound, NewlyBound;
    var w' := Consent.ApproveConsent(w, id, handle, req, server);
    ApproveCompletes(w, id, handle, req, server);
    forall c, d, h | Bound(w'.db, w'.hist.issued, c, h) && Bound(w'.db, w'.hist.issued, d, h) ensures c == d {
      ApproveBinds(w, id, handle, req, server, c, h);
      ApproveBinds(w, id, handle, req, server, d, h);
      if !Bound(w.db, w.hist.issued, c, h) && !Bound(w.db, w.hist.issued, d, h) {
        NewlyBoundOnce(w, req, c, d);
      }
    }
  }

  lemma EndKeepsRows(w: World, id: Hash, handle: Hash, req: AuthRequest)
    ensures var w' := Consent.EndConsent(w, id, handle, req);
      && w'.hist.issued == w.hist.issued && w.hist.completed <= w'.hist.completed
      && KeepsVia(w.db, w'.db, w.next) && w'.db.codes == w.db.codes
      && forall d :: d in w'.db.devices ==> d in w.db.devices && w'.db.devices[d].via == w.db.devices[d].via
  {
    if req.userCode.Some? {
      DeviceDenial(w.db, handle, req, req.userCode.value, w.reg, w.now);
      hide CompleteDevice;
    }
  }

  /** Every other consent step leaves codes, device approvals and responses alone. */
  lemma ConsentKeepsRows(w: World, id: Hash, a: Answer)
    requires id in w.flights && IsConsentFlight(w.flights[id]) && !w.flights[id].ConsentApprove?
    ensures var w' := Consent.AdvanceConsent(w, id, a);
      && w'.hist.issued == w.hist.issued && w.hist.completed <= w'.hist.completed && w'.next >= w.next
      && KeepsVia(w.db, w'.db, w.next) && w'.db.codes == w.db.codes
      && forall d :: d in w'.db.devices ==> d in w.db.devices && w'.db.devices[d].via == w.db.devices[d].via
  {
    hide FirstForbidden, RequestsFreshSignIn, Consent.EndConsent, Consent.ApproveConsent;
    var f := w.flights[id];
    if f.ConsentEnd? {
      EndKeepsRows(w, id, f.handle, f.req);
      hide KeepsVia;
    }
  }

  lemma DeviceDenial(db: Db, handle: Hash, req: AuthRequest, userCode: Hash, reg: Registry, now: Time)
    ensures var db' := CompleteDevice(db, handle, req, userCode, None, reg, now).0;
      && db'.codes == db.codes && db'.devices.Keys == db.devices.Keys
      && forall d :: d in db.devices ==> db'.devices[d].via == db.devices[d].via && (WasApproved(db.devices[d]) ==> db'.devices[d] == db.devices[d])
  {
  }

  lemma ConsentEffects(w: World, id: Hash, a: Answer)
    requires OnceInv(w) && BoundOnce(w) && id in w.flights && IsConsentFlight(w.flights[id])
    ensures var w' := Consent.AdvanceConsent(w, id, a);
      BoundOnce(w') && KeepsVia(w.db, w'.db, w.next) && w'.next >= w.next
  {
    hide OnceInv, Consent.ApproveConsent, KeepsVia;
    var f, w' := w.flights[id], Consent.AdvanceConsent(w, id, a);
    if f.ConsentApprove? {
      hide BoundOnce;
      if a.ok {
        ApproveKeepsBound(w, id, f.handle, f.req, f.server);
        ApproveCompletes(w, id, f.handle, f.req, f.server);
      } else {
        SameKeepsVia(w.db, w.next);
        SameBound(w, w');
      }
    } else {
      ConsentKeepsRows(w, id, a);
      hide Consent.AdvanceConsent;
      NothingBound(w, w');
    }
  }

  lemma SameKeepsVia(db: Db, next: Hash)
    ensures KeepsVia(db, db, next)
  {
  }

  lemma SameBound(w: World, w': World)
    requires BoundOnce(w) && w'.db == w.db && w'.hist == w.hist
    ensures BoundOnce(w')
  {
  }

  lemma AdvanceConsentKeeps(w: World, id: Hash, a: Answer)
    requires ApprovalInv(w) && id in w.flights && IsConsentFlight(w.flights[id])
    ensures ApprovalInv(Consent.AdvanceConsent(w, id, a))
  {
    hide SnapshotInv, OnceInv, BoundOnce, KeepsVia, Apply, Consent.AdvanceConsent;
    AdvanceIsStep(w, id, a);
    StepKeepsOnce(w, Advance(id, a));
    StepKeepsSnapshots(w, Advance(id, a));
    ConsentEffects(w, id, a);
    ConsentFlights(w, id, a);
    var w' := Consent.AdvanceConsent(w, id, a);
    forall other | other in w'.flights ensures ViaFits(w'.db, w'.next, w'.flights[other]) {
      if other in w.flights && w'.flights[other] == w.flights[other] {
        ViaStaysFit(w.db, w'.db, w.next, w'.next, w'.flights[other]);
      }
    }
  }

  lemma ConsentFlights(w: World, id: Hash, a: Answer)
    requires id in w.flights && IsConsentFlight(w.flights[id])
    ensures var w' := Consent.AdvanceConsent(w, id, a);
      forall other :: other in w'.flights ==> (other in w.flights && w'.flights[other] == w.flights[other]) || IsConsentFlight(w'.flights[other])
  {
  }

  // ---------------------------------------------------------------- arrivals and the environment

  lemma OthersKeepRows(w: World, step: Step)
    requires Bounded(w) && !step.Advance?
    ensures var w' := Apply(w, step);
      && w'.hist.issued == w.hist.issued && w'.hist.completed == w.hist.completed && w'.next >= w.next
      && KeepsVia(w.db, w'.db, w.next)
      && (forall c :: c in w'.db.codes ==> c in w.db.codes && w'.db.codes[c].via == w.db.codes[c].via)
      && (forall d :: d in w'.db.devices ==> w'.db.devices[d].via == if d in w.db.devices then w.db.devices[d].via else None)
  {
    if step.RevokeGrant? || step.DenyClients? || step.RemoveServer? || step.DeactivateUser? || step.Prune? {
      EnvironmentShrinks(w, step);
      hide Apply;
    } else if !step.Authorize? && !step.SignIn? && !step.NewDeviceCode? {
      ArrivalLeavesRows(w, step);
      hide Apply;
    }
  }

  lemma ArrivalFits(w: World, step: Step, id: Hash)
    requires SnapshotInv(w) && Bounded(w) && !step.Advance? && id in Apply(w, step).flights && id !in w.flights
    ensures ViaFits(w.db, w.next, Apply(w, step).flights[id])
  {
    if step.Exchange? || step.Poll? {
      hide SnapshotInv, TokenEndpoint.Proves;
    } else {
      OtherArrivals(w, step, id);
      hide Apply, SnapshotInv;
    }
  }

  lemma OtherArrivals(w: World, step: Step, id: Hash)
    requires !step.Advance? && !step.Exchange? && !step.Poll? && id in Apply(w, step).flights && id !in w.flights
    ensures !IsCodeFlight(Apply(w, step).flights[id]) && !IsDeviceFlight(Apply(w, step).flights[id])
  {
  }

  lemma OthersKeep(w: World, step: Step)
    requires ApprovalInv(w) && !step.Advance?
    ensures ApprovalInv(Apply(w, step))
  {
    var w' := Apply(w, step);
    assert Bounded(w);
    assert forall id :: id in w.flights ==> id < w.next;
    hide SnapshotInv, OnceInv, KeepsVia, Apply, ViaFits;
    StepKeepsOnce(w, step);
    StepKeepsSnapshots(w, step);
    OthersKeepRows(w, step);
    NothingBound(w, w');
    forall id | id in w'.flights ensures ViaFits(w'.db, w'.next, w'.flights[id]) {
      if id in w.flights { ArrivalKeepsFlights(w, step, id); } else { ArrivalFits(w, step, id); }
      ViaStaysFit(w.db, w'.db, w.next, w'.next, w'.flights[id]);
    }
  }

  lemma StepKeepsApprovals(w: World, step: Step)
    requires ApprovalInv(w)
    ensures ApprovalInv(Apply(w, step))
  {
    hide ApprovalInv, TokenEndpoint.AdvanceToken, Consent.AdvanceConsent;
    if !step.Advance? {
      OthersKeep(w, step);
      hide Apply;
    } else if step.flight in w.flights {
      if IsConsentFlight(w.flights[step.flight]) {
        AdvanceConsentKeeps(w, step.flight, step.answer);
      } else {
        AdvanceTokenKeeps(w, step.flight, step.answer);
      }
    }
  }

  lemma {:induction false} RunKeepsApprovals(w: World, run: seq<Step>, n: nat)
    requires ApprovalInv(w) && n <= |run|
    ensures ApprovalInv(At(w, run, n))
  {
    hide Apply, ApprovalInv;
    if n > 0 {
      RunKeepsApprovals(w, run, n - 1);
      StepKeepsApprovals(At(w, run, n - 1), run[n - 1]);
    }
  }

  /** Of two token responses that stem from the same approval, at most one is the redemption
      of a code or device code; every other one is a rotation. */
  lemma OneInitialResponsePerApproval(now: Time, reg: Registry, run: seq<Step>, n: nat, i: nat, j: nat)
    requires n <= |run| && i < j < |At(Init(now, reg), run, n).hist.issued|
    requires var issued := At(Init(now, reg), run, n).hist.issued; issued[i].via == issued[j].via
    ensures var issued := At(Init(now, reg), run, n).hist.issued;
      issued[i].credential.FromRefresh? || issued[j].credential.FromRefresh?
  {
    var w0 := Init(now, reg);
    EmptyIsSound(now, reg);
    assert ApprovalInv(w0);
    RunKeepsApprovals(w0, run, n);
    RunKeepsTrace(w0, run, n);
    hide Apply;
    var w := At(w0, run, n);
    var x, y := w.hist.issued[i], w.hist.issued[j];
    assert IssuedOk(w.hist.facts, x);
    if !x.credential.FromRefresh? && !y.credential.FromRefresh? {
      SameApprovalSameCredential(w, x, y);
    }
  }

  lemma SameApprovalSameCredential(w: World, x: Issued, y: Issued)
    requires BoundOnce(w) && x in w.hist.issued && y in w.hist.issued
    requires x.via.Some? && x.via == y.via && !x.credential.FromRefresh? && !y.credential.FromRefresh?
    ensures x.credential == y.credential
  {
    assert Bound(w.db, w.hist.issued, x.credential, x.via.value.handle);
    assert Bound(w.db, w.hist.issued, y.credential, x.via.value.handle);
  }
}
