/** The periodic check that the provider still knows a user (upstream-refresh.ts), next to
    sign-ins of the same user (oidc.ts). One check per user runs at a time and later callers
    join it; each database statement and provider call is a step of its own. */
module UpstreamRecheck {
  import opened Basics

  const UPSTREAM_RECHECK_INTERVAL_MS := 5 * 60 * 1000
  const UPSTREAM_FAIL_OPEN_MS := 24 * 60 * 60 * 1000
  const UPSTREAM_FAILURE_BACKOFF_MS := 60 * 1000

  /** The columns a check reads; a local account has no subject. */
  datatype User = User(subject: Option<string>, issuer: string, token: Option<nat>, checkedAt: Option<Time>)

  datatype Reason = UserNotFound | IssuerMismatch | NoUpstreamToken | UpstreamUnavailable | UpstreamRejected | UpstreamError | SubjectMissing | SubjectMismatch

  datatype Verdict = Allowed | Refused(reason: Reason)

  /** What a check remembers while it calls the provider. */
  datatype Asking = Asking(now: Time, subject: string, token: nat, checkedAt: Option<Time>)

  datatype Decision = Decided(verdict: Verdict) | AskProvider(asking: Asking)

  /** What the calls to the provider came to: the classes of classifyUpstreamError, or claims
      with a subject, if usable, and possibly a rotated token. */
  datatype Outcome = Rejected | Unavailable | Refuse | Confirmed(subject: Option<string>, token: Option<nat>)

  /** A conditional update still to be made. */
  datatype Write = NoWrite | Clear | Store(token: Option<nat>, stamp: Time)

  predicate CheckedWithin(checkedAt: Option<Time>, now: Time, ms: int) {
    checkedAt.Some? && now - checkedAt.value < ms
  }

  function FailOpen(checkedAt: Option<Time>, now: Time): Verdict {
    if CheckedWithin(checkedAt, now, UPSTREAM_FAIL_OPEN_MS) then Allowed else Refused(UpstreamUnavailable)
  }

  function Decide(user: Option<User>, issuer: Option<string>, failedAt: Option<Time>, now: Time): Decision {
    if user.None? then Decided(Refused(UserNotFound))
    else if user.value.subject.None? then Decided(Allowed)
    else if issuer != Some(user.value.issuer) then Decided(Refused(IssuerMismatch))
    else if CheckedWithin(user.value.checkedAt, now, UPSTREAM_RECHECK_INTERVAL_MS) then Decided(Allowed)
    else if user.value.token.None? then Decided(Refused(NoUpstreamToken))
    else if CheckedWithin(failedAt, now, UPSTREAM_FAILURE_BACKOFF_MS) then Decided(FailOpen(user.value.checkedAt, now))
    else AskProvider(Asking(now, user.value.subject.value, user.value.token.value, user.value.checkedAt))
  }

  /** The write, the verdict and the remembered failure after the provider answered at `at`. */
  function Answered(a: Asking, o: Outcome, at: Time): (Write, Verdict, Option<Time>) {
    match o
    case Rejected => (Clear, Refused(UpstreamRejected), None)
    case Unavailable => (NoWrite, FailOpen(a.checkedAt, a.now), Some(at))
    case Refuse => (NoWrite, Refused(UpstreamError), None)
    case Confirmed(subject, token) =>
      if subject == Some(a.subject) then (Store(token, at), Allowed, None)
      else (Clear, Refused(if subject.None? then SubjectMissing else SubjectMismatch), None)
  }

  /** The row is as the check read it: same token, same check time. */
  predicate Unchanged(user: User, a: Asking) {
    user.token == Some(a.token) && user.checkedAt == a.checkedAt
  }

  function Written(user: User, a: Asking, write: Write): User {
    if !Unchanged(user, a) then user
    else match write
      case NoWrite => user
      case Clear => user.(token := None)
      case Store(token, stamp) => user.(token := if token.Some? then token else user.token, checkedAt := Some(stamp))
  }

  function SignedIn(user: User, token: Option<nat>, stamp: Time): User {
    user.(token := if token.Some? then token else user.token, checkedAt := Some(stamp))
  }

  // ---------------------------------------------------------------- the module's maps

  class Rechecks {
    var inflight: map<string, nat>
    var recentFailures: map<string, Time>

    constructor ()
      ensures inflight == map[] && recentFailures == map[]
    {
      inflight, recentFailures := map[], map[];
    }

    function FailedAt(user: string): Option<Time>
      reads this
    {
      if user in recentFailures then Some(recentFailures[user]) else None
    }

    /** recheckUpstream: `next` names the check this call would start. */
    method Recheck(user: string, next: nat) returns (check: nat)
      modifies this`inflight
      ensures user in inflight && check == inflight[user]
      ensures inflight == if user in old(inflight) then old(inflight) else old(inflight)[user := next]
    {
      if user !in inflight { inflight := inflight[user := next]; }
      check := inflight[user];
    }

    /** The check between the provider's answer and its database update. */
    method Conclude(user: string, a: Asking, o: Outcome, at: Time) returns (write: Write, verdict: Verdict)
      modifies this`recentFailures
      ensures (write, verdict, FailedAt(user)) == Answered(a, o, at)
      ensures recentFailures - {user} == old(recentFailures) - {user}
    {
      if o.Unavailable? {
        recentFailures := recentFailures[user := at];
        verdict := if a.checkedAt.Some? && a.now - a.checkedAt.value < UPSTREAM_FAIL_OPEN_MS then Allowed else Refused(UpstreamUnavailable);
        return NoWrite, verdict;
      }
      recentFailures := recentFailures - {user};
      match o
      case Rejected => return Clear, Refused(UpstreamRejected);
      case Confirmed(subject, token) =>
        if subject != Some(a.subject) { return Clear, Refused(if subject.None? then SubjectMissing else SubjectMismatch); }
        return Store(token, at), Allowed;
      case _ => return NoWrite, Refused(UpstreamError);
    }

    method Finish(user: string)
      modifies this`inflight
      ensures inflight == old(inflight) - {user}
    {
      inflight := inflight - {user};
    }
  }

  // ---------------------------------------------------------------- one user's checks and sign-ins

  datatype Phase =
    | Idle
    | Loading
    | Calling(asking: Asking)
    | Writing(asking: Asking, write: Write, verdict: Verdict)
    | Ending(verdict: Verdict)

  /** A sign-in that has its claims and stamped its check, and will store them. */
  datatype SignIn = SignIn(token: Option<nat>, stamp: Time)

  /** What a caller was told, and when; `at` is when it called, `began` when the check it
      started or joined began. */
  datatype Told = Told(call: nat, at: Time, began: Time, toldAt: Time, verdict: Verdict)

  /** `confirmed` are the times at which the provider vouched for the row's subject, `signIns`
      counts those stored, `told` are all answers (history). */
  datatype World = World(
    now: Time, user: Option<User>, issuer: Option<string>, failedAt: Option<Time>, phase: Phase, began: Time,
    calls: map<nat, Time>, arriving: map<nat, SignIn>, confirmed: set<Time>, signIns: nat, told: set<Told>)

  datatype Step =
    | Tick(ms: nat)
    | Call(id: nat)
    | Load
    | Provider(outcome: Outcome)
    | Update(ok: bool)
    | Finish
    | SignInClaims(id: nat, token: Option<nat>)
    | SignInStored(id: nat)

  function Apply(w: World, step: Step): World {
    match step
    case Tick(ms) => w.(now := w.now + ms)
    case Call(id) =>
      if id in w.calls then w
      else if w.phase.Idle? then w.(phase := Loading, began := w.now, calls := w.calls[id := w.now])
      else w.(calls := w.calls[id := w.now])
    case Load =>
      if !w.phase.Loading? then w
      else (match Decide(w.user, w.issuer, w.failedAt, w.now)
        case Decided(verdict) => w.(phase := Ending(verdict))
        case AskProvider(asking) => w.(phase := Calling(asking)))
    case Provider(o) =>
      if !w.phase.Calling? then w
      else
        var (write, verdict, failedAt) := Answered(w.phase.asking, o, w.now);
        w.(phase := if write.NoWrite? then Ending(verdict) else Writing(w.phase.asking, write, verdict),
           failedAt := failedAt,
           confirmed := if write.Store? then w.confirmed + {w.now} else w.confirmed)
    case Update(ok) =>
      if !w.phase.Writing? then w
      else
        var user := if ok && w.user.Some? then Some(Written(w.user.value, w.phase.asking, w.phase.write)) else w.user;
        w.(user := user, phase := Ending(w.phase.verdict))
    case Finish =>
      if !w.phase.Ending? then w
      else w.(phase := Idle, calls := map[], told := w.told + set id | id in w.calls :: Told(id, w.calls[id], w.began, w.now, w.phase.verdict))
    case SignInClaims(id, token) =>
      if id in w.arriving then w
      else w.(arriving := w.arriving[id := SignIn(token, w.now)], confirmed := w.confirmed + {w.now})
    case SignInStored(id) =>
      if id !in w.arriving || w.user.None? then w
      else w.(user := Some(SignedIn(w.user.value, w.arriving[id].token, w.arriving[id].stamp)),
              arriving := w.arriving - {id}, signIns := w.signIns + 1)
  }

  function At(w: World, run: seq<Step>, n: nat): World
    requires n <= |run|
  {
    if n == 0 then w else Apply(At(w, run, n - 1), run[n - 1])
  }

  predicate Recent(confirmed: set<Time>, checkedAt: Option<Time>, now: Time) {
    checkedAt.Some? ==> checkedAt.value in confirmed && checkedAt.value <= now
  }

  /** By the time `until`, some confirmation came that is less than 24 hours older than `at`, or
      younger. */
  ghost predicate Vouched(confirmed: set<Time>, at: Time, until: Time) {
    exists t :: t in confirmed && at - UPSTREAM_FAIL_OPEN_MS < t <= until
  }

  ghost predicate Inv(w: World) {
    && w.user.Some? && w.user.value.subject.Some?
    && Recent(w.confirmed, w.user.value.checkedAt, w.now)
    && (forall id :: id in w.arriving ==> Recent(w.confirmed, Some(w.arriving[id].stamp), w.now))
    && (w.phase != Idle ==> w.began <= w.now)
    && (w.phase.Calling? || w.phase.Writing? ==> AskingOk(w, w.phase.asking))
    && (w.phase.Writing? && w.phase.write.Store? ==> Recent(w.confirmed, Some(w.phase.write.stamp), w.now))
    && (w.phase.Writing? && w.phase.verdict.Allowed? ==> Vouched(w.confirmed, w.began, w.now))
    && (w.phase.Ending? && w.phase.verdict.Allowed? ==> Vouched(w.confirmed, w.began, w.now))
    && (forall t :: t in w.told && t.verdict.Allowed? ==> Vouched(w.confirmed, t.began, t.toldAt))
  }

  predicate AskingOk(w: World, a: Asking) {
    && w.began <= a.now <= w.now && Recent(w.confirmed, a.checkedAt, a.now)
    && !CheckedWithin(a.checkedAt, a.now, UPSTREAM_RECHECK_INTERVAL_MS)
  }

  lemma StillVouched(w: World, w': World)
    requires w.confirmed <= w'.confirmed
    ensures forall at, t, t' :: Vouched(w.confirmed, at, t) && t <= t' ==> Vouched(w'.confirmed, at, t')
  {
  }

  lemma StepKeepsInv(w: World, step: Step)
    requires Inv(w)
    ensures Inv(Apply(w, step))
  {
    var w' := Apply(w, step);
    StillVouched(w, w');
    if step.Load? && w'.phase.Ending? && w'.phase.verdict.Allowed? && w.phase.Loading? {
      assert w.user.value.checkedAt.value > w.began - UPSTREAM_FAIL_OPEN_MS;
    }
    if step.Provider? && w.phase.Calling? && step.outcome.Unavailable? && FailOpen(w.phase.asking.checkedAt, w.phase.asking.now).Allowed? {
      assert w.phase.asking.checkedAt.value > w.began - UPSTREAM_FAIL_OPEN_MS;
    }
    if step.Provider? && w.phase.Calling? && step.outcome.Confirmed? && w'.phase.verdict.Allowed? {
      assert w.now in w'.confirmed && w.now > w.began - UPSTREAM_FAIL_OPEN_MS;
    }
    hide Vouched;
  }

  lemma {:induction false} RunKeepsInv(w: World, run: seq<Step>, n: nat)
    requires Inv(w) && n <= |run|
    ensures Inv(At(w, run, n))
  {
    hide Apply, Inv;
    if n > 0 {
      RunKeepsInv(w, run, n - 1);
      StepKeepsInv(At(w, run, n - 1), run[n - 1]);
    }
  }

  /** An identity just stored by its first sign-in. */
  function Init(now: Time, subject: string, issuer: string, token: Option<nat>, configured: Option<string>): World {
    World(now, Some(User(Some(subject), issuer, token, Some(now))), configured, None, Idle, now, map[], map[], {now}, 1, {})
  }

  /** Whoever is told that a user of the provider may go on: the provider confirmed that very
      subject less than 24 hours before the check began, or between then and the answer. */
  lemma AllowedMeansConfirmed(now: Time, subject: string, issuer: string, token: Option<nat>, configured: Option<string>, run: seq<Step>, n: nat, t: Told)
      returns (confirmed: Time)
    requires n <= |run| && t in At(Init(now, subject, issuer, token, configured), run, n).told && t.verdict.Allowed?
    ensures confirmed in At(Init(now, subject, issuer, token, configured), run, n).confirmed
    ensures t.began - 24 * 60 * 60 * 1000 < confirmed <= t.toldAt
  {
    var w := Init(now, subject, issuer, token, configured);
    RunKeepsInv(w, run, n);
    hide At;
    assert Vouched(At(w, run, n).confirmed, t.began, t.toldAt);
    confirmed :| confirmed in At(w, run, n).confirmed && t.began - UPSTREAM_FAIL_OPEN_MS < confirmed <= t.toldAt;
  }

  /** The bound counts from the start of the check, not of the call: a caller that joins a slow
      check can be let through on a confirmation more than 24 hours older than its call. */
  lemma JoinersMayBeLate(subject: string, issuer: string, token: nat) returns (run: seq<Step>, t: Told)
    ensures var w := At(Init(0, subject, issuer, Some(token), Some(issuer)), run, |run|);
      t in w.told && t.verdict.Allowed? && forall c :: c in w.confirmed ==> t.at - c > 24 * 60 * 60 * 1000
  {
    run := [Tick(UPSTREAM_FAIL_OPEN_MS - 1), Call(0), Load, Tick(2), Call(1), Provider(Unavailable), Finish];
    t := Told(1, UPSTREAM_FAIL_OPEN_MS + 1, UPSTREAM_FAIL_OPEN_MS - 1, UPSTREAM_FAIL_OPEN_MS + 1, Allowed);
    var w := Init(0, subject, issuer, Some(token), Some(issuer));
    var w3 := Apply(Apply(Apply(w, run[0]), run[1]), run[2]);
    assert w3.phase == Calling(Asking(UPSTREAM_FAIL_OPEN_MS - 1, subject, token, Some(0)));
    var w6 := Apply(Apply(Apply(w3, run[3]), run[4]), run[5]);
    assert w6.phase == Ending(Allowed) && w6.confirmed == {0} && w6.calls[1] == UPSTREAM_FAIL_OPEN_MS + 1 && w6.began == UPSTREAM_FAIL_OPEN_MS - 1;
    assert t in Apply(w6, run[6]).told;
    SevenSteps(w, run);
  }

  lemma SevenSteps(w: World, run: seq<Step>)
    requires |run| == 7
    ensures At(w, run, 7) == Apply(Apply(Apply(Apply(Apply(Apply(Apply(w, run[0]), run[1]), run[2]), run[3]), run[4]), run[5]), run[6])
  {
    hide Apply;
    assert At(w, run, 1) == Apply(w, run[0]);
    assert At(w, run, 3) == Apply(At(w, run, 2), run[2]);
    assert At(w, run, 5) == Apply(At(w, run, 4), run[4]);
  }

  // ---------------------------------------------------------------- late joiners

  /** No call of this name is waiting or was ever answered. */
  ghost predicate Unused(w: World, id: nat) {
    id !in w.calls && forall t :: t in w.told ==> t.call != id
  }

  /** Nothing that the provider confirmed is less than 24 hours older than `at`, or younger. */
  ghost predicate AllStale(confirmed: set<Time>, at: Time) {
    forall c :: c in confirmed ==> c <= at - UPSTREAM_FAIL_OPEN_MS
  }

  /** A check in this phase can still allow its callers without another confirmation. */
  predicate CanStillAllow(phase: Phase) {
    match phase
    case Calling(asking) => FailOpen(asking.checkedAt, asking.now).Allowed?
    case Writing(_, _, verdict) => verdict.Allowed?
    case Ending(verdict) => verdict.Allowed?
    case _ => false
  }

  /** After a call `id` in `w`, the run lets that very call through although by its end nothing
      less than 24 hours older than the call is confirmed. */
  ghost predicate LateAnswer(w: World, id: nat, run: seq<Step>) {
    var end := At(Apply(w, Call(id)), run, |run|);
    && (forall step :: step in run ==> step != Call(id))
    && (exists t :: t in end.told && t.call == id && t.verdict.Allowed?)
    && AllStale(end.confirmed, w.now)
  }

  /** The call is not answered so far, or refused; while it waits, its check cannot allow it. */
  ghost predicate NotLate(w: World, id: nat) {
    && (forall t :: t in w.told && t.call == id ==> t.verdict.Refused?)
    && (id in w.calls ==> w.phase != Idle && !CanStillAllow(w.phase))
  }

  /** From there on, allowing the call takes a confirmation that is young enough for it. */
  lemma StepNotLate(w: World, step: Step, id: nat, at: Time)
    requires Inv(w) && NotLate(w, id) && w.now >= at && step != Call(id) && AllStale(Apply(w, step).confirmed, at)
    ensures NotLate(Apply(w, step), id)
  {
    if step.Load? && w.phase.Loading? {
      assert w.user.value.checkedAt.Some? ==> w.user.value.checkedAt.value <= at - UPSTREAM_FAIL_OPEN_MS;
    }
    if step.Provider? && w.phase.Calling? && step.outcome.Confirmed? {
      assert Answered(w.phase.asking, step.outcome, w.now).0.Store? ==> w.now in Apply(w, step).confirmed;
    }
  }

  lemma ConfirmationsStay(w: World, step: Step)
    ensures w.confirmed <= Apply(w, step).confirmed && w.now <= Apply(w, step).now
  {
  }

  lemma {:induction false} RunNotLate(w: World, run: seq<Step>, n: nat, id: nat, at: Time)
    requires Inv(w) && NotLate(w, id) && w.now >= at && n <= |run|
    requires (forall step :: step in run ==> step != Call(id)) && AllStale(At(w, run, n).confirmed, at)
    ensures NotLate(At(w, run, n), id) && At(w, run, n).now >= at
  {
    hide Apply, Inv, NotLate;
    if n > 0 {
      ConfirmationsStay(At(w, run, n - 1), run[n - 1]);
      RunNotLate(w, run, n - 1, id, at);
      RunKeepsInv(w, run, n - 1);
      assert run[n - 1] in run;
      StepNotLate(At(w, run, n - 1), run[n - 1], id, at);
    }
  }

  lemma {:induction false} ConfirmationsGrow(w: World, run: seq<Step>, n: nat)
    requires n <= |run|
    ensures w.confirmed <= At(w, run, n).confirmed
  {
    hide Apply;
    if n > 0 {
      ConfirmationsGrow(w, run, n - 1);
      ConfirmationsStay(At(w, run, n - 1), run[n - 1]);
    }
  }

  /** The rest of a check that allows its callers, without a further confirmation. */
  function Conclusion(phase: Phase): seq<Step> {
    match phase
    case Calling(_) => [Provider(Unavailable), Finish]
    case Writing(_, _, _) => [Update(true), Finish]
    case _ => [Finish]
  }

  lemma ConclusionIsLate(w: World, id: nat)
    requires Inv(w) && Unused(w, id) && AllStale(w.confirmed, w.now) && CanStillAllow(w.phase)
    ensures LateAnswer(w, id, Conclusion(w.phase))
  {
    var w1, run := Apply(w, Call(id)), Conclusion(w.phase);
    assert At(w1, run, 1) == Apply(w1, run[0]);
    var before := At(w1, run, |run| - 1);
    assert before.phase == Ending(Allowed) && before.calls == w1.calls && before.confirmed == w.confirmed && before.now == w.now && before.began == w.began;
    var end := Apply(before, Finish);
    assert At(w1, run, |run|) == end;
    assert id in before.calls && before.calls[id] == w.now;
    assert Told(id, w.now, w.began, w.now, Allowed) in end.told;
  }

  lemma LateNeedsPhase(w: World, id: nat, run: seq<Step>)
    requires Inv(w) && Unused(w, id) && LateAnswer(w, id, run)
    ensures AllStale(w.confirmed, w.now) && CanStillAllow(w.phase)
  {
    var w1 := Apply(w, Call(id));
    ConfirmationsStay(w, Call(id));
    StepKeepsInv(w, Call(id));
    ConfirmationsGrow(w1, run, |run|);
    if !CanStillAllow(w.phase) {
      assert NotLate(w1, id);
      RunNotLate(w1, run, |run|, id, w.now);
    }
  }

  /** In every reachable state: a call made now can be let through without any confirmation that
      is less than 24 hours older than it exactly when nothing is confirmed within 24 hours
      already, and the check it joins can still allow: the provider is being asked on behalf of
      a check that may fail open, or an allowing verdict is on its way. So a call that starts a
      check, or joins one that has not read the row yet, always keeps the bound. */
  lemma WhenAJoinerIsLate(now: Time, subject: string, issuer: string, token: Option<nat>, configured: Option<string>, run: seq<Step>, n: nat, id: nat)
    requires n <= |run| && Unused(At(Init(now, subject, issuer, token, configured), run, n), id)
    ensures var w := At(Init(now, subject, issuer, token, configured), run, n);
      (exists rest :: LateAnswer(w, id, rest)) <==> AllStale(w.confirmed, w.now) && CanStillAllow(w.phase)
  {
    RunKeepsInv(Init(now, subject, issuer, token, configured), run, n);
    var w := At(Init(now, subject, issuer, token, configured), run, n);
    hide At, Apply, Init, Inv, Unused, LateAnswer, AllStale;
    if rest :| LateAnswer(w, id, rest) { LateNeedsPhase(w, id, rest); }
    if AllStale(w.confirmed, w.now) && CanStillAllow(w.phase) { ConclusionIsLate(w, id); }
  }

  function Start(subject: string, issuer: string, token: nat): World {
    Init(0, subject, issuer, Some(token), Some(issuer))
  }

  /** Each of the three phases is reached with nothing confirmed within 24 hours. */
  lemma LatePhasesAreReached(subject: string, issuer: string, token: nat) returns (calling: seq<Step>, writing: seq<Step>, ending: seq<Step>)
    ensures LateIn(Start(subject, issuer, token), calling) && PhaseAfter(Start(subject, issuer, token), calling).Calling?
    ensures LateIn(Start(subject, issuer, token), writing) && PhaseAfter(Start(subject, issuer, token), writing).Writing?
    ensures LateIn(Start(subject, issuer, token), ending) && PhaseAfter(Start(subject, issuer, token), ending).Ending?
  {
    var w := Start(subject, issuer, token);
    calling := [Tick(UPSTREAM_FAIL_OPEN_MS - 1), Call(0), Load, Tick(2)];
    FourSteps(w, calling);
    ending := [Tick(UPSTREAM_FAIL_OPEN_MS - 1), Call(0), Load, Provider(Unavailable), Tick(2)];
    FourSteps(w, ending);
    writing := [Tick(UPSTREAM_RECHECK_INTERVAL_MS), Call(0), Load, Provider(Confirmed(Some(subject), None)), Tick(UPSTREAM_FAIL_OPEN_MS)];
    FourSteps(w, writing);
    hide At;
  }

  function PhaseAfter(w: World, run: seq<Step>): Phase {
    At(w, run, |run|).phase
  }

  ghost predicate LateIn(w: World, run: seq<Step>) {
    var end := At(w, run, |run|);
    AllStale(end.confirmed, end.now) && CanStillAllow(end.phase)
  }

  lemma FourSteps(w: World, run: seq<Step>)
    requires |run| >= 4
    ensures At(w, run, 4) == Apply(Apply(Apply(Apply(w, run[0]), run[1]), run[2]), run[3])
    ensures |run| >= 5 ==> At(w, run, 5) == Apply(At(w, run, 4), run[4])
  {
    hide Apply;
    assert At(w, run, 1) == Apply(w, run[0]);
    assert At(w, run, 3) == Apply(At(w, run, 2), run[2]);
  }

  // ---------------------------------------------------------------- rejection

  /** The token is gone and the last check too old: every check refuses. */
  predicate LockedOut(w: World) {
    && w.user.Some? && w.user.value.subject.Some? && w.user.value.token.None?
    && !CheckedWithin(w.user.value.checkedAt, w.now, UPSTREAM_RECHECK_INTERVAL_MS)
    && !w.phase.Calling? && !w.phase.Writing?
  }

  /** The step makes a clear that takes effect. */
  predicate Clears(w: World, step: Step) {
    step == Update(true) && w.phase.Writing? && w.phase.write.Clear? && w.user.Some? && Unchanged(w.user.value, w.phase.asking)
  }

  lemma ClearLocksOut(w: World, step: Step)
    requires Inv(w) && Clears(w, step)
    ensures LockedOut(Apply(w, step))
  {
  }

  lemma LockedOutStays(w: World, step: Step)
    requires LockedOut(w)
    ensures LockedOut(Apply(w, step)) || Apply(w, step).signIns > w.signIns
    ensures Apply(w, step).signIns >= w.signIns
    ensures step.Load? && w.phase.Loading? ==> Apply(w, step).phase.Ending? && Apply(w, step).phase.verdict.Refused?
  {
  }

  lemma {:induction false} LockedOutUntilSignIn(w: World, run: seq<Step>, i: nat, n: nat)
    requires i <= n <= |run| && LockedOut(At(w, run, i))
    ensures LockedOut(At(w, run, n)) || At(w, run, n).signIns > At(w, run, i).signIns
    ensures At(w, run, n).signIns >= At(w, run, i).signIns
  {
    hide Apply, LockedOut;
    if i < n {
      LockedOutUntilSignIn(w, run, i, n - 1);
      if LockedOut(At(w, run, n - 1)) { LockedOutStays(At(w, run, n - 1), run[n - 1]); } else { SignInsGrow(At(w, run, n - 1), run[n - 1]); }
    }
  }

  lemma SignInsGrow(w: World, step: Step)
    ensures Apply(w, step).signIns >= w.signIns
  {
  }

  /** Once a rejection has cleared the token, every check that reads the row before the next
      sign-in is stored refuses. */
  lemma RejectionLasts(now: Time, subject: string, issuer: string, token: Option<nat>, configured: Option<string>, run: seq<Step>, i: nat, n: nat)
    requires var w := Init(now, subject, issuer, token, configured);
      i < n < |run| && Clears(At(w, run, i), run[i]) && run[n].Load? && At(w, run, n).phase.Loading?
      && At(w, run, n).signIns == At(w, run, i).signIns
    ensures var w := Init(now, subject, issuer, token, configured);
      At(w, run, n + 1).phase.Ending? && At(w, run, n + 1).phase.verdict.Refused?
  {
    var w := Init(now, subject, issuer, token, configured);
    RunKeepsInv(w, run, i);
    ClearLocksOut(At(w, run, i), run[i]);
    SignInsGrow(At(w, run, i), run[i]);
    LockedOutUntilSignIn(w, run, i + 1, n);
    LockedOutStays(At(w, run, n), run[n]);
    hide LockedOut, Clears, Apply;
  }

  // ---------------------------------------------------------------- sign-ins win

  /** A sign-in stored while a check was under way is overwritten by it exactly when it left
      the token and the check time as the check had read them; that takes a sign-in of the
      same millisecond as the last check and without a new token. */
  lemma SignInWins(user: User, a: Asking, write: Write, token: Option<nat>, stamp: Time)
    requires !write.NoWrite? && (write.Store? ==> write.stamp != stamp)
    ensures var signedIn := SignedIn(user, token, stamp);
      Written(signedIn, a, write) != signedIn <==> a.checkedAt == Some(stamp) && (if token.Some? then token else user.token) == Some(a.token)
  {
  }

  /** The sign-in stored at step `i` landed in a check that had read the row and had not
      finished its update. */
  predicate Lands(w: World, run: seq<Step>, i: nat)
    requires i < |run|
  {
    && run[i].SignInStored? && run[i].id in At(w, run, i).arriving
    && (At(w, run, i).phase.Calling? || At(w, run, i).phase.Writing?)
  }

  /** Between steps `i` and `n` no other sign-in is stored, and no later check reads the row. */
  ghost predicate SameCheck(w: World, run: seq<Step>, i: nat, n: nat)
    requires n <= |run|
  {
    forall k :: i < k < n ==> !run[k].SignInStored? && !At(w, run, k).phase.Loading?
  }

  /** A sign-in that lands in a check with another stamp than the check read survives it, whether
      the provider still has to answer or the update is already on its way. */
  lemma {:induction false} LaterSignInSurvives(w: World, run: seq<Step>, i: nat, n: nat)
    requires Inv(w) && i < n <= |run| && Lands(w, run, i) && SameCheck(w, run, i, n)
    requires Some(At(w, run, i).arriving[run[i].id].stamp) != At(w, run, i).phase.asking.checkedAt
    ensures At(w, run, n).user == At(w, run, i + 1).user
    ensures At(w, run, n).user.Some? && At(w, run, n).user.value.checkedAt == Some(At(w, run, i).arriving[run[i].id].stamp)
    ensures At(w, run, n).phase.Calling? || At(w, run, n).phase.Writing? ==> At(w, run, n).phase.asking == At(w, run, i).phase.asking
  {
    if n > i + 1 {
      LaterSignInSurvives(w, run, i, n - 1);
    } else {
      RunKeepsInv(w, run, i);
    }
  }

  lemma {:induction false} UntilTheUpdate(w: World, run: seq<Step>, i: nat, n: nat)
    requires Inv(w) && i < n <= |run| && Lands(w, run, i) && SameCheck(w, run, i, n)
    requires forall k :: i < k < n ==> !run[k].Update?
    ensures At(w, run, n).user == At(w, run, i + 1).user
    ensures At(w, run, n).phase.Calling? || At(w, run, n).phase.Writing? ==> At(w, run, n).phase.asking == At(w, run, i).phase.asking
  {
    if n > i + 1 {
      UntilTheUpdate(w, run, i, n - 1);
    } else {
      RunKeepsInv(w, run, i);
    }
  }

  /** Over runs: the update of the check that a sign-in landed in takes effect on it exactly when
      the sign-in left the check time and the token as the check had read them. */
  lemma UpdateHitsSignIn(w: World, run: seq<Step>, i: nat, n: nat)
    requires Inv(w) && i < n < |run| && Lands(w, run, i) && SameCheck(w, run, i, n)
    requires (forall k :: i < k < n ==> !run[k].Update?) && run[n] == Update(true) && At(w, run, n).phase.Writing?
    ensures At(w, run, n).user.Some? && At(w, run, i).user.Some?
    ensures var before, arrived, asking := At(w, run, i).user.value, At(w, run, i).arriving[run[i].id], At(w, run, i).phase.asking;
      Unchanged(At(w, run, n).user.value, At(w, run, n).phase.asking) <==>
        asking.checkedAt == Some(arrived.stamp) && (if arrived.token.Some? then arrived.token else before.token) == Some(asking.token)
  {
    UntilTheUpdate(w, run, i, n);
    RunKeepsInv(w, run, i);
    hide At;
  }

  /** It can happen: a sign-in that got its claims in the millisecond of the last check, without a
      new token, is stored while the next check asks the provider, and that check overwrites it. */
  lemma SignInCanBeOverwritten(subject: string, issuer: string, token: nat) returns (run: seq<Step>)
    ensures |run| == 7 && Lands(Init(0, subject, issuer, Some(token), Some(issuer)), run, 4) && run[6] == Update(true)
    ensures var w := Init(0, subject, issuer, Some(token), Some(issuer));
      At(w, run, 6).user == At(w, run, 5).user && At(w, run, 7).user != At(w, run, 6).user
  {
    run := [SignInClaims(0, None), Tick(UPSTREAM_RECHECK_INTERVAL_MS), Call(0), Load, SignInStored(0), Provider(Confirmed(Some(subject), None)), Update(true)];
    var w := Init(0, subject, issuer, Some(token), Some(issuer));
    FourSteps(w, run);
    var w4 := At(w, run, 4);
    assert w4.phase == Calling(Asking(UPSTREAM_RECHECK_INTERVAL_MS, subject, token, Some(0))) && w4.arriving[0] == SignIn(None, 0);
    var w6 := Apply(Apply(w4, run[4]), run[5]);
    assert At(w, run, 6) == w6 && At(w, run, 7) == Apply(w6, run[6]);
    assert Unchanged(w6.user.value, w6.phase.asking);
  }
}
