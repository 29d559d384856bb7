/** What one upstream check comes to, from the provider's outcome to the stored row, its callers'
    verdict and later checks. */
module UpstreamOutcomes {
  import opened Basics
  import opened UpstreamRecheck

  predicate YoungerThan(checkedAt: Option<Time>, now: Time, ms: nat) {
    checkedAt.Some? && now < checkedAt.value + ms
  }

  /** The row after a check that read `before` and whose provider answered `o` at `at`. */
  predicate RightRow(before: User, o: Outcome, at: Time, after: User) {
    && after.subject == before.subject && after.issuer == before.issuer
    && match o
       case Rejected => after.token.None? && after.checkedAt == before.checkedAt
       case Confirmed(subject, token) =>
         if subject == before.subject
         then after.token == (if token.Some? then token else before.token) && after.checkedAt == Some(at)
         else after.token.None? && after.checkedAt == before.checkedAt
       case _ => after == before
  }

  /** What the callers of that check are told; it read the row at `asked`. */
  predicate RightVerdict(before: User, o: Outcome, asked: Time, v: Verdict) {
    match o
    case Rejected => v == Refused(UpstreamRejected)
    case Refuse => v == Refused(UpstreamError)
    case Unavailable =>
      if YoungerThan(before.checkedAt, asked, 24 * 60 * 60 * 1000) then v.Allowed? else v == Refused(UpstreamUnavailable)
    case Confirmed(subject, _) =>
      if subject.None? then v == Refused(SubjectMissing)
      else if subject != before.subject then v == Refused(SubjectMismatch)
      else v.Allowed?
  }

  /** The check that read the row at step `l` asked the provider, was answered at `i`, and is over
      at `n`; its update, if any, succeeded, and no sign-in was stored meanwhile. */
  ghost predicate CheckDone(w: World, run: seq<Step>, l: nat, i: nat, n: nat) {
    && l < i < n <= |run|
    && run[l].Load? && At(w, run, l).phase.Loading?
    && run[i].Provider? && At(w, run, i).phase.Calling?
    && At(w, run, n).phase.Idle?
    && (forall k: nat :: l < k < n ==> Undisturbed(At(w, run, k), run[k]))
  }

  predicate Undisturbed(w: World, step: Step) {
    !w.phase.Loading? && !step.SignInStored? && (step.Update? ==> step.ok)
  }

  /** Up to the answer, the check remembers the row as it still is. */
  predicate Asked(w: World, before: User, asked: Time) {
    && w.user == Some(before) && w.phase.Calling? && before.subject.Some? && before.token.Some?
    && w.phase.asking == Asking(asked, before.subject.value, before.token.value, before.checkedAt)
  }

  lemma LoadAsks(w: World)
    requires Inv(w) && w.phase.Loading? && Apply(w, Load).phase.Calling?
    ensures Asked(Apply(w, Load), w.user.value, w.now)
  {
  }

  lemma {:induction false} UntilAnswered(w: World, run: seq<Step>, l: nat, i: nat)
    requires Inv(w) && l < i < |run| && run[l].Load? && At(w, run, l).phase.Loading? && At(w, run, i).phase.Calling?
    requires forall k: nat :: l < k < i ==> Undisturbed(At(w, run, k), run[k])
    ensures At(w, run, l).user.Some? && Asked(At(w, run, i), At(w, run, l).user.value, At(w, run, l).now)
  {
    RunKeepsInv(w, run, l);
    if l + 1 < i {
      var before := At(w, run, i - 1);
      assert Undisturbed(before, run[i - 1]);
      StaysCalling(before, run[i - 1]);
      UntilAnswered(w, run, l, i - 1);
      StaysAsked(before, run[i - 1], At(w, run, l).user.value, At(w, run, l).now);
    } else {
      LoadAsks(At(w, run, l));
    }
    hide Apply, Inv, Asked;
  }

  lemma StaysCalling(w: World, step: Step)
    requires Apply(w, step).phase.Calling? && !w.phase.Loading?
    ensures w.phase.Calling? && !step.Provider?
  {
  }

  lemma StaysAsked(w: World, step: Step, before: User, asked: Time)
    requires Asked(w, before, asked) && Undisturbed(w, step) && !step.Provider?
    ensures Asked(Apply(w, step), before, asked)
  {
  }

  /** Everybody in `calls` waits in `w`, or was told rightly. */
  ghost predicate Concluding(w: World, before: User, o: Outcome, asked: Time, at: Time, calls: set<nat>) {
    match w.phase
    case Writing(a, write, v) =>
      && w.user == Some(before) && RightVerdict(before, o, asked, v) && calls <= w.calls.Keys
      && RightRow(before, o, at, Written(before, a, write))
    case Ending(v) => w.user.Some? && RightRow(before, o, at, w.user.value) && RightVerdict(before, o, asked, v) && calls <= w.calls.Keys
    case Idle => w.user.Some? && RightRow(before, o, at, w.user.value) && AllTold(w, before, o, asked, calls)
    case _ => false
  }

  ghost predicate AllTold(w: World, before: User, o: Outcome, asked: Time, calls: set<nat>) {
    forall id :: id in calls ==> exists t :: t in w.told && t.call == id && RightVerdict(before, o, asked, t.verdict)
  }

  lemma AnswerConcludes(w: World, o: Outcome, before: User, asked: Time)
    requires Asked(w, before, asked)
    ensures Concluding(Apply(w, Provider(o)), before, o, asked, w.now, w.calls.Keys)
  {
  }

  lemma StepConcludes(w: World, step: Step, before: User, o: Outcome, asked: Time, at: Time, calls: set<nat>)
    requires Concluding(w, before, o, asked, at, calls) && Undisturbed(w, step) && !Apply(w, step).phase.Loading?
    ensures Concluding(Apply(w, step), before, o, asked, at, calls)
  {
    var w' := Apply(w, step);
    if step.Finish? && w.phase.Ending? {
      forall id | id in calls ensures exists t :: t in w'.told && t.call == id && RightVerdict(before, o, asked, t.verdict) {
        assert Told(id, w.calls[id], w.began, w.now, w.phase.verdict) in w'.told;
      }
    }
    hide RightRow, RightVerdict;
  }

  lemma {:induction false} UntilDone(w: World, run: seq<Step>, i: nat, n: nat, before: User, asked: Time)
    requires i < n <= |run| && run[i].Provider? && Asked(At(w, run, i), before, asked)
    requires (forall k: nat :: i < k < n ==> Undisturbed(At(w, run, k), run[k])) && !At(w, run, n).phase.Loading?
    ensures Concluding(At(w, run, n), before, run[i].outcome, asked, At(w, run, i).now, At(w, run, i).calls.Keys)
  {
    hide Apply, Asked, Concluding;
    if i + 1 < n {
      assert Undisturbed(At(w, run, n - 1), run[n - 1]);
      UntilDone(w, run, i, n - 1, before, asked);
      StepConcludes(At(w, run, n - 1), run[n - 1], before, run[i].outcome, asked, At(w, run, i).now, At(w, run, i).calls.Keys);
    } else {
      AnswerConcludes(At(w, run, i), run[i].outcome, before, asked);
    }
  }

  /** A check that asked the provider, from outcome to effect: a user whom the provider disowns, or
      for whom it names somebody else, loses the stored token; a confirmed one keeps or changes it
      and is stamped; nothing else changes the row. All callers waiting at the answer are told the
      verdict that goes with the outcome. */
  lemma OutcomeDecides(now: Time, subject: string, issuer: string, token: Option<nat>, configured: Option<string>, run: seq<Step>, l: nat, i: nat, n: nat)
    requires CheckDone(Init(now, subject, issuer, token, configured), run, l, i, n)
    ensures var w := Init(now, subject, issuer, token, configured);
      && At(w, run, l).user.Some? && At(w, run, n).user.Some?
      && RightRow(At(w, run, l).user.value, run[i].outcome, At(w, run, i).now, At(w, run, n).user.value)
      && AllTold(At(w, run, n), At(w, run, l).user.value, run[i].outcome, At(w, run, l).now, At(w, run, i).calls.Keys)
  {
    var w := Init(now, subject, issuer, token, configured);
    assert Inv(w);
    hide Init, Apply, At;
    UntilAnswered(w, run, l, i);
    UntilDone(w, run, i, n, At(w, run, l).user.value, At(w, run, l).now);
  }

  /** The provider no longer vouches for this user. */
  predicate Disowns(o: Outcome, user: User) {
    o.Rejected? || (o.Confirmed? && o.subject != user.subject)
  }

  /** From then on every check refuses until a sign-in is stored. */
  lemma DisownedUntilSignIn(now: Time, subject: string, issuer: string, token: Option<nat>, configured: Option<string>, run: seq<Step>, l: nat, i: nat, n: nat, m: nat)
    requires var w := Init(now, subject, issuer, token, configured);
      && CheckDone(w, run, l, i, n) && At(w, run, l).user.Some? && Disowns(run[i].outcome, At(w, run, l).user.value)
      && n <= m < |run| && run[m].Load? && At(w, run, m).phase.Loading? && At(w, run, m).signIns == At(w, run, n).signIns
    ensures var w := Init(now, subject, issuer, token, configured);
      At(w, run, n).user.Some? && At(w, run, n).user.value.token.None? && At(w, run, m + 1).phase.Ending? && At(w, run, m + 1).phase.verdict.Refused?
  {
    var w := Init(now, subject, issuer, token, configured);
    assert Inv(w);
    OutcomeDecides(now, subject, issuer, token, configured, run, l, i, n);
    RunKeepsInv(w, run, l);
    NotCheckedLately(w, run, l, i, n);
    LockedOutUntilSignIn(w, run, n, m);
    LockedOutStays(At(w, run, m), run[m]);
    hide Init, Apply, LockedOut;
  }

  /** The row had not been checked for five minutes when the provider was asked. */
  lemma NotCheckedLately(w: World, run: seq<Step>, l: nat, i: nat, n: nat)
    requires Inv(w) && CheckDone(w, run, l, i, n) && At(w, run, l).user.Some?
    ensures !CheckedWithin(At(w, run, l).user.value.checkedAt, At(w, run, n).now, UPSTREAM_RECHECK_INTERVAL_MS)
    ensures At(w, run, l).user.value.subject.Some?
  {
    RunKeepsInv(w, run, i);
    UntilAnswered(w, run, l, i);
    NowGrows(w, run, i, n);
    hide Apply, At;
  }

  lemma {:induction false} NowGrows(w: World, run: seq<Step>, i: nat, n: nat)
    requires i <= n <= |run|
    ensures At(w, run, i).now <= At(w, run, n).now
  {
    if i < n { NowGrows(w, run, i, n - 1); }
  }

  // ---------------------------------------------------------------- when the provider is asked

  predicate Answers(w: World, step: Step) {
    step.Provider? && w.phase.Calling?
  }

  /** The last answer of the provider before step `n` came at step `i`, or none came. */
  ghost predicate LastAnswer(w: World, run: seq<Step>, i: Option<nat>, n: nat) {
    && n <= |run|
    && (i.Some? ==> i.value < n && Answers(At(w, run, i.value), run[i.value]))
    && forall k: nat :: (i.Some? ==> i.value < k) && k < n ==> !Answers(At(w, run, k), run[k])
  }

  lemma {:induction false} FailureIsLastAnswer(w: World, run: seq<Step>, i: Option<nat>, n: nat)
    requires LastAnswer(w, run, i, n) && w.failedAt.None?
    ensures At(w, run, n).failedAt == if i.Some? && run[i.value].outcome.Unavailable? then Some(At(w, run, i.value).now) else None
  {
    hide Apply, Answers;
    if n > 0 {
      FailureStep(At(w, run, n - 1), run[n - 1]);
      if i != Some(n - 1) { FailureIsLastAnswer(w, run, i, n - 1); }
    }
  }

  lemma FailureStep(w: World, step: Step)
    ensures Apply(w, step).failedAt ==
      if !Answers(w, step) then w.failedAt else if step.outcome.Unavailable? then Some(w.now) else None
  {
  }

  /** The provider was out of reach when it was last asked, less than a minute ago. */
  ghost predicate BacksOff(w: World, run: seq<Step>, i: Option<nat>, n: nat)
    requires LastAnswer(w, run, i, n)
  {
    i.Some? && run[i.value].outcome.Unavailable? && At(w, run, n).now < At(w, run, i.value).now + 60 * 1000
  }

  /** How a check decides that does not ask the provider: for a user checked within five minutes,
      and, while it backs off, for one with a token checked within 24 hours. */
  predicate RightDecision(u: User, configured: Option<string>, now: Time, v: Verdict) {
    if configured != Some(u.issuer) then v == Refused(IssuerMismatch)
    else if YoungerThan(u.checkedAt, now, 5 * 60 * 1000) then v.Allowed?
    else if u.token.None? then v == Refused(NoUpstreamToken)
    else if YoungerThan(u.checkedAt, now, 24 * 60 * 60 * 1000) then v.Allowed?
    else v == Refused(UpstreamUnavailable)
  }

  /** A check asks the provider exactly for a user of the configured provider who has a token and
      was not checked within five minutes, unless the provider was out of reach within the last. */
  lemma WhenTheProviderIsAsked(now: Time, subject: string, issuer: string, token: Option<nat>, configured: Option<string>, run: seq<Step>, i: Option<nat>, n: nat)
    requires n < |run| && run[n].Load? && LastAnswer(Init(now, subject, issuer, token, configured), run, i, n)
    requires At(Init(now, subject, issuer, token, configured), run, n).phase.Loading?
    ensures var w := Init(now, subject, issuer, token, configured);
      var s, s' := At(w, run, n), At(w, run, n + 1);
      && s.user.Some? && s'.user == s.user && (s'.phase.Calling? || s'.phase.Ending?)
      && var u := s.user.value;
      && var due := configured == Some(issuer) && u.token.Some? && !YoungerThan(u.checkedAt, s.now, 5 * 60 * 1000);
      && (s'.phase.Calling? <==> due && !BacksOff(w, run, i, n))
      && (s'.phase.Ending? ==> RightDecision(u, configured, s.now, s'.phase.verdict))
  {
    var w := Init(now, subject, issuer, token, configured);
    assert Inv(w);
    RunKeepsInv(w, run, n);
    FailureIsLastAnswer(w, run, i, n);
    SameIssuer(w, run, n);
    hide At;
  }

  lemma {:induction false} SameIssuer(w: World, run: seq<Step>, n: nat)
    requires w.user.Some? && n <= |run|
    ensures At(w, run, n).user.Some? && At(w, run, n).user.value.issuer == w.user.value.issuer && At(w, run, n).issuer == w.issuer
  {
    hide Decide, Answered;
    if n > 0 { SameIssuer(w, run, n - 1); }
  }

  /** A local account is let through without a provider, and nobody without a row is. */
  lemma LocalAccountsPass(w: World)
    requires w.phase.Loading? && (w.user.Some? ==> w.user.value.subject.None?)
    ensures Apply(w, Load) == w.(phase := Ending(if w.user.Some? then Allowed else Refused(UserNotFound)))
  {
  }
}
