/** The consent page and its submission (consent.ts), and the device-code pages (device.ts). */
module Consent {
  import opened Basics
  import opened ResourceRegistry
  import opened Tables
  import opened World

  /** loadFlow, the flow-binding cookie and the session check together. */
  predicate CanLoad(w: World, handle: Hash, sessionUser: string) {
    && handle in w.db.requests
    && var r := w.db.requests[handle];
    && !(r.expiresAt < w.now)
    && r.flow != SelfLoginFlow
    && r.subject == Some(sessionUser)
  }

  function LoadConsent(w: World, handle: Hash, sessionUser: string, approving: bool): World {
    if !CanLoad(w, handle, sessionUser) then w
    else Spawn(w, ConsentLoaded(handle, w.db.requests[handle], approving))
  }

  function DenyConsent(w: World, handle: Hash, sessionUser: string): World {
    if !CanLoad(w, handle, sessionUser) then w
    else Spawn(w, ConsentEnd(handle, w.db.requests[handle]))
  }

  /** POST /oauth/device/code, once its checks have passed. */
  function NewDeviceCode(w: World, client: string, resource: string, scopes: seq<string>): World {
    if resource !in w.reg || exists s :: s in scopes && s != OFFLINE_ACCESS && s !in ScopeNames(w.reg[resource].scopes) then w
    else
      var device := DeviceCode(w.next, client, resource, scopes, Pending, None, None, 5, w.now + DEVICE_CODE_TTL_MS, None);
      w.(db := w.db.(devices := w.db.devices[w.next + 1 := device]),
         next := w.next + 2,
         hist := w.hist.(facts := w.hist.facts.(births := w.hist.facts.births[w.next := DeviceBirth(client, resource, scopes)])))
  }

  /** POST /oauth/device finds the pending row of the entered code. */
  function EnterUserCode(w: World, device: Hash): World {
    if device !in w.db.devices || w.db.devices[device].status != Pending || !(w.db.devices[device].expiresAt > w.now) then w
    else Spawn(w, EnteredCode(w.db.devices[device]))
  }

  /** GET /oauth/authorize, once its checks have passed; or a self-login request. */
  function Authorize(w: World, flow: FlowType, client: string, resource: string, scopes: seq<string>, redirectUri: string, challenge: string): World {
    if flow == DeviceFlow then w
    else if flow == OauthFlow && (resource !in w.reg || exists s :: s in scopes && s != OFFLINE_ACCESS && s !in ScopeNames(w.reg[resource].scopes)) then w
    else
      var fresh' := resource in w.reg && RequestsFreshSignIn(w.reg[resource], scopes);
      var req := AuthRequest(flow, client, resource, scopes, redirectUri, None, challenge, fresh', None, [], w.now + AUTHORIZATION_REQUEST_TTL_MS);
      w.(db := w.db.(requests := w.db.requests[w.next := req]), next := w.next + 1)
  }

  /** A finished sign-in names the request's user. */
  function SignIn(w: World, handle: Hash, user: string): World {
    if handle !in w.db.requests then w
    else w.(db := w.db.(requests := w.db.requests[handle := w.db.requests[handle].(subject := Some(user))]))
  }

  /** Consumes the request, and denies the device code of a device flow. */
  function EndConsent(w: World, id: Hash, handle: Hash, req: AuthRequest): (w': World)
    ensures w'.db.tokens == w.db.tokens && w'.next >= w.next && w'.flights == w.flights - {id}
    ensures w'.hist.issued == w.hist.issued
  {
    if req.flow == DeviceFlow then
      if req.userCode.None? then Done(w, id)
      else
        var (db, _) := CompleteDevice(w.db, handle, req, req.userCode.value, None, w.reg, w.now);
        Consumed(Done(w, id), db, handle)
    else
      var (db, _) := ConsumeRequest(w.db, handle);
      Consumed(Done(w, id), db, handle)
  }

  /** `handle` is completed by the transaction that leads to `db` when it was still there. */
  function Consumed(w: World, db: Db, handle: Hash): World {
    w.(db := db, hist := if handle in w.db.requests then w.hist.(completed := w.hist.completed + [handle]) else w.hist)
  }

  function ApproveConsent(w: World, id: Hash, handle: Hash, req: AuthRequest, server: Server): (w': World)
    ensures w'.db.tokens == w.db.tokens && w'.next >= w.next && w'.flights == w.flights - {id}
    ensures w'.hist.issued == w.hist.issued
  {
    if req.subject.None? then Done(w, id)
    else
      var user := req.subject.value;
      if req.flow == DeviceFlow then
        if req.userCode.None? then Done(w, id)
        else
          var (db, outcome) := CompleteDevice(w.db, handle, req, req.userCode.value, Some((user, server)), w.reg, w.now);
          var w' := Consumed(Done(w, id), db, handle);
          if outcome == Completed then Approve(w', handle, req) else w'
      else
        var (db, issued) := ApproveRedirect(w.db, handle, req, user, server, w.reg, w.next, w.now);
        var w' := Consumed(Done(w, id), db, handle).(next := w.next + 1);
        if issued then Approve(w', handle, req) else w'
  }

  function Approve(w: World, handle: Hash, req: AuthRequest): World {
    w.(hist := w.hist.(facts := w.hist.facts.(approved := w.hist.facts.approved + {Approval(handle, req)})))
  }

  /** The next step of a consent or device-entry request. */
  function AdvanceConsent(w: World, id: Hash, a: Answer): World
    requires id in w.flights
  {
    match w.flights[id]
    case EnteredCode(e) =>
      var fresh' := e.resource in w.reg && RequestsFreshSignIn(w.reg[e.resource], e.scopes);
      var req := AuthRequest(DeviceFlow, e.client, e.resource, e.scopes, "urn:mcp-auth:device-flow", Some(e.userCode), "device-flow-no-pkce", fresh', None, [], e.expiresAt);
      Done(w, id).(db := w.db.(requests := w.db.requests[w.next := req]), next := w.next + 1)
    case ConsentLoaded(handle, req, approving) =>
      if !a.ok || req.resource !in w.reg then Done(w, id)
      else Go(w, id, ConsentGroups(handle, req, w.reg[req.resource], approving))
    case ConsentGroups(handle, req, server, approving) =>
      if FirstForbidden(req.scopes, server, a.groups).Some? then Go(w, id, ConsentEnd(handle, req))
      else if !req.requireFresh && RequestsFreshSignIn(server, req.scopes) then Go(w, id, ConsentEnd(handle, req))
      else if approving then Go(w, id, ConsentApprove(handle, req, server))
      else Go(w, id, ConsentPin(handle, server))
    case ConsentPin(handle, server) =>
      var shown := set c | c in server.releaseClaims :: (handle, c);
      var w' := Done(w, id).(hist := w.hist.(facts := w.hist.facts.(shown := w.hist.facts.shown + shown)));
      if handle !in w.db.requests then w'
      else w'.(db := w.db.(requests := w.db.requests[handle := w.db.requests[handle].(shownClaims := server.releaseClaims)]))
    case ConsentApprove(handle, req, server) =>
      if !a.ok then Done(w, id) else ApproveConsent(w, id, handle, req, server)
    case ConsentEnd(handle, req) => EndConsent(w, id, handle, req)
    case _ => w
  }
}
