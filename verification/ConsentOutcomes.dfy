/** A consent page, submission or device-code entry that nothing interrupts: exactly when it is
    granted, and what it leaves. */
module ConsentOutcomes {
  import opened Basics
  import opened ResourceRegistry
  import opened Tables
  import opened World
  import opened Protocol
  import opened ProtocolConsent
  import opened ProtocolResponses
  import opened ProtocolRequests
  import Consent

  /** The request is open, and the signed-in user is the one it names. */
  predicate MayLoad(w: World, handle: Hash, user: string) {
    && handle in w.db.requests
    && var r := w.db.requests[handle];
    && w.now <= r.expiresAt && r.flow != SelfLoginFlow && r.subject == Some(user)
  }

  ghost predicate Unchanged(w: World, w': World) {
    w'.db == w.db && w'.hist == w.hist
  }

  /** The row of a pending, unexpired device code of that user code and client. */
  predicate Awaits(d: DeviceCode, userCode: Hash, client: string, now: Time) {
    d.userCode == userCode && d.client == client && d.status == Pending && d.expiresAt > now
  }

  function DeniedIf(d: DeviceCode, awaited: bool): DeviceCode {
    if awaited then d.(status := Denied) else d
  }

  function ApprovedIf(d: DeviceCode, awaited: bool, user: string, a: Approval): DeviceCode {
    if awaited then d.(status := Approved, user := Some(user), via := Some(a)) else d
  }

  /** A refused or denied request is gone, and its device code denied; a device request without a
      user code is left alone. */
  ghost predicate Ended(w: World, w': World, handle: Hash, req: AuthRequest) {
    if req.flow == DeviceFlow && req.userCode.None? then Unchanged(w, w')
    else
      && w'.hist == w.hist.(completed := w.hist.completed + [handle])
      && w'.db == w.db.(requests := w.db.requests - {handle}, devices := w'.db.devices)
      && w'.db.devices.Keys == w.db.devices.Keys
      && forall d :: d in w.db.devices ==> 
           w'.db.devices[d] == DeniedIf(w.db.devices[d], req.flow == DeviceFlow && Awaits(w.db.devices[d], req.userCode.value, req.client, w.now))
  }

  /** The grant after an approval: a live grant keeps its scopes and claims and gets those approved; a
      revoked one starts over. No scope that is short-lived now is stored. */
  ghost predicate GrantAfter(w: World, g: Grant, key: GrantKey, req: AuthRequest, server: Server) {
    && g.revokedAt.None?
    && (forall s :: s in g.scopes <==>
          && (s in req.scopes || (LiveGrant(w, key) && s in w.db.grants[key].scopes))
          && !(req.resource in w.reg && FirstIsShortLived(w.reg[req.resource].scopes, s)))
    && (forall c :: c in g.releasedClaims <==>
          (c in req.shownClaims && c in server.releaseClaims) || (LiveGrant(w, key) && c in w.db.grants[key].releasedClaims))
  }

  ghost predicate GrantsAfter(w: World, w': World, user: string, req: AuthRequest, server: Server) {
    var key := GrantKey(user, req.client, req.resource);
    && key in w'.db.grants && GrantAfter(w, w'.db.grants[key], key, req, server)
    && w'.db.grants - {key} == w.db.grants - {key}
  }

  /** An approved OAuth request leaves its grant and one unused code of ten minutes, which stands for
      the request in every field. */
  ghost predicate CodeApproved(w: World, w': World, handle: Hash, user: string, req: AuthRequest, server: Server) {
    && w'.hist.completed == w.hist.completed + [handle] && w'.hist.facts.approved == w.hist.facts.approved + {Approval(handle, req)}
    && w'.hist.issued == w.hist.issued
    && w'.db == w.db.(requests := w.db.requests - {handle}, codes := w'.db.codes, grants := w'.db.grants)
    && GrantsAfter(w, w', user, req, server)
    && w.next + 1 in w'.db.codes && w'.db.codes - {w.next + 1} == w.db.codes - {w.next + 1}
    && var c := w'.db.codes[w.next + 1];
    && c.user == user && c.client == req.client && c.resource == req.resource && c.scopes == req.scopes
    && c.redirectUri == req.redirectUri && c.challenge == req.challenge && c.grant == GrantKey(user, req.client, req.resource)
    && c.expiresAt == w.now + 10 * 60 * 1000 && c.consumedAt.None?
  }

  /** An approved device request approves its pending device code for the user; without one it only
      consumes the request. */
  ghost predicate DeviceApproved(w: World, w': World, handle: Hash, user: string, req: AuthRequest, server: Server)
    requires req.userCode.Some?
  {
    && w'.hist.completed == w.hist.completed + [handle] && w'.hist.issued == w.hist.issued
    && w'.db == w.db.(requests := w.db.requests - {handle}, devices := w'.db.devices, grants := w'.db.grants)
    && w'.db.devices.Keys == w.db.devices.Keys
    && (forall d :: d in w.db.devices ==> 
          w'.db.devices[d] == ApprovedIf(w.db.devices[d], Awaits(w.db.devices[d], req.userCode.value, req.client, w.now), user, Approval(handle, req)))
    && if exists d :: d in w.db.devices && Awaits(w.db.devices[d], req.userCode.value, req.client, w.now)
       then GrantsAfter(w, w', user, req, server) && w'.hist.facts.approved == w.hist.facts.approved + {Approval(handle, req)}
       else w'.db.grants == w.db.grants && w'.hist == w.hist.(completed := w'.hist.completed)
  }

  ghost predicate ApprovalComesTo(w: World, w': World, handle: Hash, user: string, req: AuthRequest, server: Server) {
    if req.flow != DeviceFlow then CodeApproved(w, w', handle, user, req, server)
    else if req.userCode.None? then Unchanged(w, w')
    else DeviceApproved(w, w', handle, user, req, server)
  }

  /** A page view pins the claims it lists on the request. */
  ghost predicate Shown(w: World, w': World, handle: Hash, server: Server)
    requires handle in w.db.requests
  {
    && w'.db == w.db.(requests := w.db.requests[handle := w.db.requests[handle].(shownClaims := server.releaseClaims)])
    && w'.hist.completed == w.hist.completed && w'.hist.issued == w.hist.issued && w'.hist.facts.approved == w.hist.facts.approved
    && forall h, c :: (h, c) in w'.hist.facts.shown <==> (h, c) in w.hist.facts.shown || (h == handle && c in server.releaseClaims)
  }

  /** What a visit to the consent page, or an approving submission of it, comes to. */
  ghost predicate VisitComesTo(w: World, handle: Hash, user: string, approving: bool, answers: seq<Answer>, w': World)
    requires |answers| == 3
  {
    if !MayLoad(w, handle, user) then Unchanged(w, w')
    else
      var req := w.db.requests[handle];
      if !answers[0].ok || req.resource !in w.reg then Unchanged(w, w')
      else
        var server := w.reg[req.resource];
        if !GatesPassed(req, server, answers[1].groups) then Ended(w, w', handle, req)
        else if !approving then Shown(w, w', handle, server)
        else if !answers[2].ok then Unchanged(w, w')
        else ApprovalComesTo(w, w', handle, user, req, server)
  }

  lemma VisitArrives(w: World, handle: Hash, user: string, approving: bool)
    ensures Apply(w, LoadConsent(handle, user, approving)) ==
      if MayLoad(w, handle, user) then Spawn(w, ConsentLoaded(handle, w.db.requests[handle], approving)) else w
  {
  }

  lemma LoadedStep(w: World, handle: Hash, req: AuthRequest, approving: bool, a: Answer)
    requires w.next !in w.flights
    ensures OneStep(w, ConsentLoaded(handle, req, approving), a) ==
      if a.ok && req.resource in w.reg then Spawn(w, ConsentGroups(handle, req, w.reg[req.resource], approving)) else Over(w)
  {
    SpawnDone(w, ConsentLoaded(handle, req, approving));
    hide FirstForbidden, RequestsFreshSignIn;
  }

  lemma GroupsStep(w: World, handle: Hash, req: AuthRequest, server: Server, approving: bool, a: Answer)
    requires w.next !in w.flights
    ensures OneStep(w, ConsentGroups(handle, req, server, approving), a) ==
      Spawn(w, if !GatesPassed(req, server, a.groups) then ConsentEnd(handle, req)
               else if approving then ConsentApprove(handle, req, server) else ConsentPin(handle, server))
  {
    hide Consent.ApproveConsent, Consent.EndConsent, FirstForbidden, RequestsFreshSignIn, GatesPassed;
    SpawnDone(w, ConsentGroups(handle, req, server, approving));
    GatesInFields(req, server, a.groups);
  }

  lemma PinStep(w: World, handle: Hash, server: Server, a: Answer)
    requires w.next !in w.flights && handle in w.db.requests
    ensures Shown(w, OneStep(w, ConsentPin(handle, server), a), handle, server) && w.next !in OneStep(w, ConsentPin(handle, server), a).flights
  {
    SpawnDone(w, ConsentPin(handle, server));
    hide FirstForbidden, RequestsFreshSignIn;
  }

  lemma EndStep(w: World, handle: Hash, req: AuthRequest, a: Answer)
    requires w.next !in w.flights && handle in w.db.requests
    ensures Ended(w, OneStep(w, ConsentEnd(handle, req), a), handle, req) && w.next !in OneStep(w, ConsentEnd(handle, req), a).flights
  {
    hide Apply, CompleteDevice, Awaits;
    SpawnDone(w, ConsentEnd(handle, req));
    StepEnds(w, handle, req, a);
    if req.flow == DeviceFlow && req.userCode.Some? { DeviceEnds(w.db, handle, req, w.reg, w.now); }
  }

  lemma StepEnds(w: World, handle: Hash, req: AuthRequest, a: Answer)
    ensures OneStep(w, ConsentEnd(handle, req), a) == Consent.EndConsent(Spawn(w, ConsentEnd(handle, req)), w.next, handle, req)
  {
    hide Consent.EndConsent;
  }

  lemma StepApproves(w: World, handle: Hash, req: AuthRequest, server: Server, a: Answer)
    requires a.ok
    ensures OneStep(w, ConsentApprove(handle, req, server), a) ==
      Consent.ApproveConsent(Spawn(w, ConsentApprove(handle, req, server)), w.next, handle, req, server)
  {
    hide Consent.ApproveConsent;
  }

  lemma DeviceEnds(db: Db, handle: Hash, req: AuthRequest, reg: Registry, now: Time)
    requires handle in db.requests && req.userCode.Some?
    ensures var db' := CompleteDevice(db, handle, req, req.userCode.value, None, reg, now).0;
      && db' == db.(requests := db.requests - {handle}, devices := db'.devices)
      && db'.devices.Keys == db.devices.Keys
      && forall d :: d in db.devices ==> 
           db'.devices[d] == DeniedIf(db.devices[d], Awaits(db.devices[d], req.userCode.value, req.client, now))
  {
    var rows := PendingDevices(db.devices, req.userCode.value, req.client, now);
    assert forall d :: d in db.devices && Awaits(db.devices[d], req.userCode.value, req.client, now) ==> d in rows;
  }

  lemma ShortLivedInFields(reg: Registry, resource: string)
    ensures forall s :: IsShortLivedScope(reg, resource, s) <==> resource in reg && FirstIsShortLived(reg[resource].scopes, s)
  {
    forall s ensures IsShortLivedScope(reg, resource, s) <==> resource in reg && FirstIsShortLived(reg[resource].scopes, s) {
      if resource in reg { ShortLivedIsFirst(reg[resource].scopes, s); }
    }
  }

  lemma MergedIsAfter(w: World, key: GrantKey, req: AuthRequest, server: Server)
    ensures GrantAfter(w, MergedGrant(w.db.grants, key, req, server, w.reg), key, req, server)
  {
    ShortLivedInFields(w.reg, req.resource);
    hide FirstIsShortLived, IsShortLivedScope, Dedupe, Drop, Keep;
    var scopes := (if LiveGrant(w, key) then w.db.grants[key].scopes else []) + req.scopes;
    var shortLived := set s | s in scopes && IsShortLivedScope(w.reg, req.resource, s);
    assert MergedGrant(w.db.grants, key, req, server, w.reg).scopes == Dedupe(Drop(scopes, shortLived));
  }

  lemma ApproveCodeStep(w: World, handle: Hash, req: AuthRequest, server: Server, a: Answer)
    requires w.next !in w.flights && handle in w.db.requests && req.flow != DeviceFlow && req.subject.Some? && a.ok
    ensures var w' := OneStep(w, ConsentApprove(handle, req, server), a);
      CodeApproved(w, w', handle, req.subject.value, req, server) && w.next !in w'.flights
  {
    hide Apply, MergedGrant, GrantAfter;
    SpawnDone(w, ConsentApprove(handle, req, server));
    StepApproves(w, handle, req, server, a);
    MergedIsAfter(w, GrantKey(req.subject.value, req.client, req.resource), req, server);
  }

  lemma ApproveDeviceStep(w: World, handle: Hash, req: AuthRequest, server: Server, a: Answer)
    requires w.next !in w.flights && handle in w.db.requests && req.flow == DeviceFlow && req.subject.Some? && a.ok && req.userCode.Some?
    ensures var w' := OneStep(w, ConsentApprove(handle, req, server), a);
      DeviceApproved(w, w', handle, req.subject.value, req, server) && w.next !in w'.flights
  {
    hide Apply, MergedGrant, GrantAfter, CompleteDevice, Awaits, ApprovedIf;
    SpawnDone(w, ConsentApprove(handle, req, server));
    StepApproves(w, handle, req, server, a);
    MergedIsAfter(w, GrantKey(req.subject.value, req.client, req.resource), req, server);
    DeviceApproves(w.db, handle, req, server, w.reg, w.now);
  }

  lemma DeviceApproves(db: Db, handle: Hash, req: AuthRequest, server: Server, reg: Registry, now: Time)
    requires handle in db.requests && req.userCode.Some? && req.subject.Some?
    ensures var (db', outcome) := CompleteDevice(db, handle, req, req.userCode.value, Some((req.subject.value, server)), reg, now);
      var key := GrantKey(req.subject.value, req.client, req.resource);
      && db' == db.(requests := db.requests - {handle}, devices := db'.devices, grants := db'.grants)
      && db'.devices.Keys == db.devices.Keys
      && (forall d :: d in db.devices ==>
            db'.devices[d] == ApprovedIf(db.devices[d], Awaits(db.devices[d], req.userCode.value, req.client, now), req.subject.value, Approval(handle, req)))
      && (outcome == Completed <==> exists d :: d in db.devices && Awaits(db.devices[d], req.userCode.value, req.client, now))
      && db'.grants == (if outcome == Completed then db.grants[key := MergedGrant(db.grants, key, req, server, reg)] else db.grants)
  {
    var rows := PendingDevices(db.devices, req.userCode.value, req.client, now);
    assert forall d :: d in db.devices && Awaits(db.devices[d], req.userCode.value, req.client, now) ==> d in rows;
    hide MergedGrant;
  }

  // ---------------------------------------------------------------- whole requests

  lemma EndGoesOn(w: World, handle: Hash, req: AuthRequest, answers: seq<Answer>)
    requires w.next !in w.flights && handle in w.db.requests && answers != []
    ensures Ended(w, From(w, ConsentEnd(handle, req), answers), handle, req)
  {
    EndStep(w, handle, req, answers[0]);
    hide Apply, OneStep, Onward, Ended;
    Ends(w, ConsentEnd(handle, req), answers);
  }

  lemma ApprovalGoesOn(w: World, handle: Hash, req: AuthRequest, server: Server, user: string, answers: seq<Answer>)
    requires w.next !in w.flights && handle in w.db.requests && answers != [] && req.subject == Some(user)
    ensures var w' := From(w, ConsentApprove(handle, req, server), answers);
      if answers[0].ok then ApprovalComesTo(w, w', handle, user, req, server) else Unchanged(w, w')
  {
    RefusedApprovalStep(w, handle, req, server, answers[0]);
    if answers[0].ok && req.flow != DeviceFlow { ApproveCodeStep(w, handle, req, server, answers[0]); }
    if answers[0].ok && req.flow == DeviceFlow && req.userCode.Some? { ApproveDeviceStep(w, handle, req, server, answers[0]); }
    hide Apply, OneStep, Onward, CodeApproved, DeviceApproved;
    Ends(w, ConsentApprove(handle, req, server), answers);
  }

  lemma RefusedApprovalStep(w: World, handle: Hash, req: AuthRequest, server: Server, a: Answer)
    requires w.next !in w.flights
    ensures !a.ok || (req.flow == DeviceFlow && req.userCode.None?) ==> OneStep(w, ConsentApprove(handle, req, server), a) == Over(w)
  {
    SpawnDone(w, ConsentApprove(handle, req, server));
    hide FirstForbidden, RequestsFreshSignIn, MergedGrant;
  }

  lemma VisitGoesOn(w: World, handle: Hash, user: string, approving: bool, answers: seq<Answer>)
    requires w.next !in w.flights && |answers| == 3 && MayLoad(w, handle, user)
    ensures VisitComesTo(w, handle, user, approving, answers, From(w, ConsentLoaded(handle, w.db.requests[handle], approving), answers))
  {
    hide Apply, OneStep, Onward, From, GatesPassed, Ended, Shown, ApprovalComesTo;
    var req := w.db.requests[handle];
    LoadedStep(w, handle, req, approving, answers[0]);
    if !answers[0].ok || req.resource !in w.reg {
      Ends(w, ConsentLoaded(handle, req, approving), answers);
    } else {
      var server := w.reg[req.resource];
      GoesOn(w, ConsentLoaded(handle, req, approving), ConsentGroups(handle, req, server, approving), answers);
      GroupsStep(w, handle, req, server, approving, answers[1]);
      if !GatesPassed(req, server, answers[1].groups) {
        GoesOn(w, ConsentGroups(handle, req, server, approving), ConsentEnd(handle, req), answers[1..]);
        EndGoesOn(w, handle, req, answers[2..]);
      } else if approving {
        GoesOn(w, ConsentGroups(handle, req, server, approving), ConsentApprove(handle, req, server), answers[1..]);
        ApprovalGoesOn(w, handle, req, server, user, answers[2..]);
      } else {
        GoesOn(w, ConsentGroups(handle, req, server, approving), ConsentPin(handle, server), answers[1..]);
        PinStep(w, handle, server, answers[2]);
        Ends(w, ConsentPin(handle, server), answers[2..]);
      }
    }
  }

  /** In every reachable state, an approving submission on its own is granted exactly when the signed-in
      user is the one of an open request, the client resolves, the resource is registered, every gate
      is passed and the transaction commits; a failed gate ends the request; a page view pins the
      claims it lists. */
  lemma WhenConsentIsGranted(now: Time, reg: Registry, run: seq<Step>, n: nat, handle: Hash, user: string, approving: bool, answers: seq<Answer>)
    requires n <= |run| && |answers| == 3
    ensures var w := At(Init(now, reg), run, n);
      VisitComesTo(w, handle, user, approving, answers, Onward(Apply(w, LoadConsent(handle, user, approving)), w.next, answers))
  {
    var w := At(Init(now, reg), run, n);
    ReachableIsSound(now, reg, run, n);
    VisitArrives(w, handle, user, approving);
    hide Apply, Onward, At, Init;
    NothingMore(w, w.next, answers);
    if MayLoad(w, handle, user) {
      VisitGoesOn(w, handle, user, approving, answers);
      hide VisitComesTo;
    }
  }

  /** Denying ends the request of the signed-in user, and nothing else. */
  lemma WhatADenialEnds(now: Time, reg: Registry, run: seq<Step>, n: nat, handle: Hash, user: string, answers: seq<Answer>)
    requires n <= |run| && |answers| == 1
    ensures var w := At(Init(now, reg), run, n);
      var w' := Onward(Apply(w, DenyConsent(handle, user)), w.next, answers);
      if MayLoad(w, handle, user) then Ended(w, w', handle, w.db.requests[handle]) else Unchanged(w, w')
  {
    var w := At(Init(now, reg), run, n);
    ReachableIsSound(now, reg, run, n);
    DenialArrives(w, handle, user);
    hide Apply, Onward, At, Init, Ended;
    NothingMore(w, w.next, answers);
    if MayLoad(w, handle, user) { EndGoesOn(w, handle, w.db.requests[handle], answers); }
  }

  lemma DenialArrives(w: World, handle: Hash, user: string)
    ensures Apply(w, DenyConsent(handle, user)) == if MayLoad(w, handle, user) then Spawn(w, ConsentEnd(handle, w.db.requests[handle])) else w
  {
  }

  // ---------------------------------------------------------------- requests and codes

  /** All scopes but offline_access are declared. */
  predicate AllDeclared(w: World, resource: string, scopes: seq<string>) {
    resource in w.reg && forall s :: s in scopes && s != "offline_access" ==> Declares(w.reg[resource], s)
  }

  /** An authorization request is stored as it came, open for ten minutes, for a registered resource
      and declared scopes only, with a fresh sign-in demanded where a scope needs one. */
  lemma WhatAuthorizeStores(w: World, flow: FlowType, client: string, resource: string, scopes: seq<string>, uri: string, challenge: string)
    requires flow != DeviceFlow
    ensures var w' := Apply(w, Authorize(flow, client, resource, scopes, uri, challenge));
      if flow == OauthFlow && !AllDeclared(w, resource, scopes) then w' == w
      else
        && w.next in w'.db.requests && w' == w.(db := w.db.(requests := w.db.requests[w.next := w'.db.requests[w.next]]), next := w.next + 1)
        && var r := w'.db.requests[w.next];
        && r.flow == flow && r.client == client && r.resource == resource && r.scopes == scopes && r.redirectUri == uri && r.challenge == challenge
        && r.expiresAt == w.now + 10 * 60 * 1000 && r.subject.None? && r.shownClaims == [] && r.userCode.None?
        && (r.requireFresh <==> resource in w.reg && NeedsFreshSignIn(w.reg[resource], scopes))
  {
    assert resource in w.reg ==> (NeedsFreshSignIn(w.reg[resource], scopes) <==> RequestsFreshSignIn(w.reg[resource], scopes));
    assert resource in w.reg ==> forall s :: Declares(w.reg[resource], s) <==> s in ScopeNames(w.reg[resource].scopes);
    hide NeedsFreshSignIn, RequestsFreshSignIn, Declares, ScopeNames;
  }

  /** A device code is created pending, open for fifteen minutes, for a registered resource and declared
      scopes only. */
  lemma WhatADeviceCodeStarts(w: World, client: string, resource: string, scopes: seq<string>)
    ensures var w' := Apply(w, NewDeviceCode(client, resource, scopes));
      if !AllDeclared(w, resource, scopes) then w' == w
      else
        && w.next + 1 in w'.db.devices && w'.db == w.db.(devices := w.db.devices[w.next + 1 := w'.db.devices[w.next + 1]]) && w'.flights == w.flights
        && var d := w'.db.devices[w.next + 1];
        && d.userCode == w.next && d.client == client && d.resource == resource && d.scopes == scopes
        && d.status == Pending && d.user.None? && d.lastPolledAt.None? && d.pollInterval == 5 && d.expiresAt == w.now + 15 * 60 * 1000
  {
    assert resource in w.reg ==> forall s :: Declares(w.reg[resource], s) <==> s in ScopeNames(w.reg[resource].scopes);
    hide Declares, ScopeNames;
  }

  /** A finished sign-in names the user of an open request and changes nothing else in it. */
  lemma WhatASignInNames(w: World, handle: Hash, user: string)
    ensures Apply(w, SignIn(handle, user)) ==
      if handle in w.db.requests then w.(db := w.db.(requests := w.db.requests[handle := w.db.requests[handle].(subject := Some(user))])) else w
  {
  }

  /** Entering the code of a pending, unexpired device opens a request for exactly what the device
      asked for, as long as the device code lasts. */
  lemma WhatAnEnteredCodeOpens(now: Time, reg: Registry, run: seq<Step>, n: nat, device: Hash, a: Answer)
    requires n <= |run|
    ensures var w := At(Init(now, reg), run, n);
      var w' := Onward(Apply(w, EnterUserCode(device)), w.next, [a]);
      if device in w.db.devices && w.db.devices[device].status == Pending && w.now < w.db.devices[device].expiresAt
      then EnteredAs(w, w', w.db.devices[device]) else Unchanged(w, w')
  {
    var w := At(Init(now, reg), run, n);
    ReachableIsSound(now, reg, run, n);
    hide At, Init;
    EnteredStep(w, device, a);
    NothingMore(w, w.next, [a]);
    hide Apply, Onward, EnteredAs;
    if Apply(w, EnterUserCode(device)) != w { Ends(w, EnteredCode(w.db.devices[device]), [a]); }
  }

  ghost predicate EnteredAs(w: World, w': World, d: DeviceCode) {
    && w'.hist == w.hist && w.next + 1 in w'.db.requests && w'.db == w.db.(requests := w.db.requests[w.next + 1 := w'.db.requests[w.next + 1]])
    && var r := w'.db.requests[w.next + 1];
    && r.flow == DeviceFlow && r.client == d.client && r.resource == d.resource && r.scopes == d.scopes && r.userCode == Some(d.userCode)
    && r.expiresAt == d.expiresAt && r.subject.None? && r.shownClaims == []
    && (r.requireFresh <==> d.resource in w.reg && NeedsFreshSignIn(w.reg[d.resource], d.scopes))
  }

  lemma EnteredStep(w: World, device: Hash, a: Answer)
    requires w.next !in w.flights
    ensures if device in w.db.devices && w.db.devices[device].status == Pending && w.now < w.db.devices[device].expiresAt
      then Apply(w, EnterUserCode(device)) == Spawn(w, EnteredCode(w.db.devices[device]))
           && EnteredAs(w, OneStep(w, EnteredCode(w.db.devices[device]), a), w.db.devices[device])
           && w.next !in OneStep(w, EnteredCode(w.db.devices[device]), a).flights
      else Apply(w, EnterUserCode(device)) == w
  {
    if device in w.db.devices {
      var d := w.db.devices[device];
      SpawnDone(w, EnteredCode(d));
      assert d.resource in w.reg ==> (NeedsFreshSignIn(w.reg[d.resource], d.scopes) <==> RequestsFreshSignIn(w.reg[d.resource], d.scopes));
    }
    hide NeedsFreshSignIn, RequestsFreshSignIn;
  }
}
