/** What stands behind an approval: a submission of the signed-in user the request belongs to,
    whose group and fresh-sign-in gates were passed in between. */
module ProtocolConsent {
  import opened Basics
  import opened ResourceRegistry
  import opened Tables
  import opened World
  import opened Protocol
  import opened ProtocolChains
  import opened ProtocolTheorems
  import Consent
  import ProtocolTrace
  import TokenEndpoint

  predicate OpenTo(s: Scope, groups: set<string>) {
    s.requireGroups.Some? && s.requireGroups.value != [] ==> exists g :: g in s.requireGroups.value && g in groups
  }

  predicate NeedsFreshSignIn(server: Server, scopes: seq<string>) {
    exists s :: s in server.scopes && s.name in scopes && s.freshSignIn
  }

  /** The checks between loading the consent submission and acting on it: the user is in a group of
      every requested scope that lists any, and a fresh sign-in was asked for where one is needed. */
  ghost predicate GatesPassed(req: AuthRequest, server: Server, groups: set<string>) {
    && (forall i: nat :: i < |server.scopes| && server.scopes[i].name in req.scopes && FirstOfName(server.scopes, i, server.scopes[i].name)
          ==> OpenTo(server.scopes[i], groups))
    && (NeedsFreshSignIn(server, req.scopes) ==> req.requireFresh)
  }

  lemma GatesInFields(req: AuthRequest, server: Server, groups: set<string>)
    ensures GatesPassed(req, server, groups) <==>
      FirstForbidden(req.scopes, server, groups).None? && (req.requireFresh || !RequestsFreshSignIn(server, req.scopes))
  {
    hide FirstForbidden, FindScope;
    forall name ensures Forbidden(server, name, groups) <==>
        exists i: nat :: FirstOfName(server.scopes, i, name) && !OpenTo(server.scopes[i], groups)
    {
      LookupFindsFirst(server.scopes, name);
      forall i: nat, j: nat | FirstOfName(server.scopes, i, name) && FirstOfName(server.scopes, j, name) ensures i == j { OneFirst(server.scopes, i, j, name); }
    }
    hide Forbidden, OpenTo;
    if FirstForbidden(req.scopes, server, groups).None? {
      forall i: nat | i < |server.scopes| && server.scopes[i].name in req.scopes && FirstOfName(server.scopes, i, server.scopes[i].name)
        ensures OpenTo(server.scopes[i], groups)
      {
        assert !Forbidden(server, server.scopes[i].name, groups);
      }
    } else {
      var name := FirstForbidden(req.scopes, server, groups).value;
      var i: nat :| FirstOfName(server.scopes, i, name) && !OpenTo(server.scopes[i], groups);
    }
  }

  /** How a consent flight got to where it is. */
  ghost predicate CameFrom(w: World, step: Step, id: Hash, f: Flight) {
    match f
    case ConsentLoaded(handle, req, approving) =>
      step.LoadConsent? && step.handle == handle && step.approving == approving && id == w.next
      && Consent.CanLoad(w, handle, step.user) && w.db.requests[handle] == req
    case ConsentGroups(handle, req, server, approving) =>
      step.Advance? && step.flight == id && id in w.flights && w.flights[id] == ConsentLoaded(handle, req, approving)
      && req.resource in w.reg && server == w.reg[req.resource]
    case ConsentApprove(handle, req, server) =>
      step.Advance? && step.flight == id && id in w.flights && w.flights[id] == ConsentGroups(handle, req, server, true)
      && GatesPassed(req, server, step.answer.groups)
    case _ => true
  }

  predicate Submission(f: Flight) {
    f.ConsentLoaded? || f.ConsentGroups? || f.ConsentApprove?
  }

  lemma AdvanceCameFrom(w: World, id: Hash, a: Answer)
    requires id in w.flights && IsConsentFlight(w.flights[id]) && id in Consent.AdvanceConsent(w, id, a).flights
    ensures CameFrom(w, Advance(id, a), id, Consent.AdvanceConsent(w, id, a).flights[id])
  {
    if w.flights[id].ConsentGroups? { GatesInFields(w.flights[id].req, w.flights[id].server, a.groups); }
    hide GatesPassed, Consent.ApproveConsent, Consent.EndConsent, FirstForbidden, RequestsFreshSignIn;
  }

  lemma TokenFlightsAreNoSubmissions(w: World, id: Hash, a: Answer)
    requires id in w.flights && !IsConsentFlight(w.flights[id]) && id in TokenEndpoint.AdvanceToken(w, id, a).flights
    ensures !Submission(TokenEndpoint.AdvanceToken(w, id, a).flights[id])
  {
    hide ClaimCode, ClaimDevice, RotateToken, RevokeTokens, Mint, PermittedScopes, RefreshableScopes;
  }

  lemma ArrivalCameFrom(w: World, step: Step, id: Hash)
    requires !step.Advance? && id in Apply(w, step).flights && id !in w.flights
    ensures CameFrom(w, step, id, Apply(w, step).flights[id])
  {
  }

  lemma SubmissionStep(w: World, step: Step, id: Hash)
    requires SnapshotInv(w) && id in Apply(w, step).flights && Submission(Apply(w, step).flights[id])
    ensures (id in w.flights && w.flights[id] == Apply(w, step).flights[id]) || CameFrom(w, step, id, Apply(w, step).flights[id])
  {
    assert forall other :: other in w.flights ==> other < w.next;
    hide SnapshotInv, CameFrom, Submission, TokenEndpoint.AdvanceToken, Consent.AdvanceConsent;
    if !step.Advance? {
      if id in w.flights { ArrivalKeepsFlights(w, step, id); } else { ArrivalCameFrom(w, step, id); }
      hide Apply;
    } else if step.flight in w.flights {
      if id != step.flight {
        AdvanceOthers(w, step.flight, step.answer, id);
        hide Apply;
      } else if IsConsentFlight(w.flights[id]) {
        AdvanceCameFrom(w, id, step.answer);
      } else {
        TokenFlightsAreNoSubmissions(w, id, step.answer);
      }
    }
  }

  /** The step that put a submission where it is. */
  lemma {:induction false} SubmissionOrigin(w: World, run: seq<Step>, n: nat, id: Hash) returns (k: nat)
    requires w.flights == map[] && SnapshotInv(w) && n <= |run|
    requires id in At(w, run, n).flights && Submission(At(w, run, n).flights[id])
    ensures k < n && CameFrom(At(w, run, k), run[k], id, At(w, run, n).flights[id])
  {
    hide Apply, SnapshotInv, CameFrom, Submission;
    assert n > 0;
    RunKeepsSnapshots(w, run, n - 1);
    SubmissionStep(At(w, run, n - 1), run[n - 1], id);
    if CameFrom(At(w, run, n - 1), run[n - 1], id, At(w, run, n).flights[id]) {
      k := n - 1;
    } else {
      k := SubmissionOrigin(w, run, n - 1, id);
    }
  }

  /** The step records the approval. */
  ghost predicate Records(w: World, step: Step, a: Approval, server: Server) {
    && step.Advance? && step.flight in w.flights && step.answer.ok
    && w.flights[step.flight] == ConsentApprove(a.handle, a.req, server) && a.handle in w.db.requests
  }

  lemma ApprovalStep(w: World, step: Step, a: Approval) returns (server: Server)
    requires a in Apply(w, step).hist.facts.approved && a !in w.hist.facts.approved
    ensures Records(w, step, a, server)
  {
    if step.Advance? && step.flight in w.flights {
      if IsConsentFlight(w.flights[step.flight]) {
        server := ConsentApproval(w, step.flight, step.answer, a);
        hide Apply;
      } else {
        ProtocolTrace.AdvanceTokenFrame(w, step.flight, step.answer);
        hide TokenEndpoint.AdvanceToken;
      }
    }
  }

  lemma ConsentApproval(w: World, id: Hash, answer: Answer, a: Approval) returns (server: Server)
    requires id in w.flights && IsConsentFlight(w.flights[id])
    requires a in Consent.AdvanceConsent(w, id, answer).hist.facts.approved && a !in w.hist.facts.approved
    ensures Records(w, Advance(id, answer), a, server)
  {
    hide FirstForbidden, RequestsFreshSignIn, MergedGrant;
    server := w.flights[id].server;
  }

  lemma {:induction false} ApprovalOrigin(w: World, run: seq<Step>, n: nat, a: Approval) returns (k: nat, server: Server)
    requires n <= |run| && a in At(w, run, n).hist.facts.approved && a !in w.hist.facts.approved
    ensures k < n && Records(At(w, run, k), run[k], a, server)
  {
    hide Apply, Records;
    assert n > 0;
    if a in At(w, run, n - 1).hist.facts.approved {
      k, server := ApprovalOrigin(w, run, n - 1, a);
    } else {
      k := n - 1;
      server := ApprovalStep(At(w, run, n - 1), run[n - 1], a);
    }
  }

  /** The signed-in user to whom the request belongs submits it with "approve", in the state in
      which it is approved. */
  predicate Submitted(w: World, step: Step, a: Approval) {
    && step.LoadConsent? && step.approving && step.handle == a.handle && a.req.subject == Some(step.user)
    && a.handle in w.db.requests && w.db.requests[a.handle] == a.req
  }

  /** The registry entry that the submission acts on. */
  predicate Read(reg: Registry, resource: string, server: Server) {
    resource in reg && reg[resource] == server
  }

  predicate OneSubmission(id: Hash, first: Step, second: Step, third: Step) {
    first.Advance? && second.Advance? && third.Advance? && first.flight == id && second.flight == id && third.flight == id
  }

  /** The approval `a` was recorded at `k` by the submission that arrived at `i`, whose registry entry
      was read at `h` and whose gates were passed at `j`. */
  ghost predicate PassedItsGates(w: World, run: seq<Step>, a: Approval, i: nat, h: nat, j: nat, k: nat, server: Server)
    requires i < h < j < k < |run|
  {
    && Records(At(w, run, k), run[k], a, server)
    && Submitted(At(w, run, i), run[i], a) && OneSubmission(At(w, run, i).next, run[h], run[j], run[k])
    && Read(At(w, run, h).reg, a.req.resource, server) && GatesPassed(a.req, server, run[j].answer.groups)
  }

  /** Every approval goes back to one submission: made by the signed-in user to whom the
      request, just as it was approved, then belonged; with the resource server's entry read
      from the registry after that; and acted on only after the user's groups passed every gate
      of that entry and a demanded fresh sign-in had been asked for. `w` is any state to start
      from without requests in flight, such as an empty one. */
  lemma EveryApprovalPassedItsGates(w: World, run: seq<Step>, n: nat, a: Approval)
      returns (i: nat, h: nat, j: nat, k: nat, server: Server)
    requires w.flights == map[] && SnapshotInv(w) && n <= |run|
    requires a in At(w, run, n).hist.facts.approved && a !in w.hist.facts.approved
    ensures i < h < j < k < n && PassedItsGates(w, run, a, i, h, j, k, server)
  {
    hide Apply, SnapshotInv, GatesPassed, Consent.CanLoad;
    k, server := ApprovalOrigin(w, run, n, a);
    i, h, j := SubmissionSteps(w, run, k, run[k].flight, a, server);
    OwnSubmission(At(w, run, i), a.handle, run[i].user);
  }

  /** Flight `id` was loaded at step `i`, got its registry entry at `h`, and passed its gates at `j`. */
  ghost predicate PhasesOf(w: World, run: seq<Step>, i: nat, h: nat, j: nat, id: Hash, a: Approval, server: Server)
    requires i < |run| && h < |run| && j < |run|
  {
    && CameFrom(At(w, run, i), run[i], id, ConsentLoaded(a.handle, a.req, true))
    && CameFrom(At(w, run, h), run[h], id, ConsentGroups(a.handle, a.req, server, true))
    && CameFrom(At(w, run, j), run[j], id, ConsentApprove(a.handle, a.req, server))
  }

  lemma SubmissionSteps(w: World, run: seq<Step>, k: nat, id: Hash, a: Approval, server: Server) returns (i: nat, h: nat, j: nat)
    requires w.flights == map[] && SnapshotInv(w) && k <= |run|
    requires id in At(w, run, k).flights && At(w, run, k).flights[id] == ConsentApprove(a.handle, a.req, server)
    ensures i < h < j < k && PhasesOf(w, run, i, h, j, id, a, server)
  {
    hide Apply, SnapshotInv, GatesPassed, Consent.CanLoad;
    j := SubmissionOrigin(w, run, k, id);
    h := SubmissionOrigin(w, run, j, id);
    i := SubmissionOrigin(w, run, h, id);
  }

  lemma OwnSubmission(w: World, handle: Hash, user: string)
    requires Consent.CanLoad(w, handle, user)
    ensures handle in w.db.requests && w.db.requests[handle].subject == Some(user)
  {
  }
}
