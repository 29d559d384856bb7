/** The verifier's key cache (jwks-cache.ts): one fetch at a time, rate limits, back-off and
    bounded staleness, under any interleaving of calls. */
module JwksCache {
  import opened Basics

  const MIN_REFRESH_INTERVAL_MS := 1000
  const FAILURE_BACKOFF_MS := 5000
  const MISSED_KID_TTL_MS := 5000
  const MAX_MISSED_KIDS := 1000

  datatype Jwk = Jwk(kid: string, material: string)

  datatype KeySet = KeySet(keys: seq<Jwk>, fetchedAt: Time, expiresAt: Time)

  /** A fetch is named by its number; `inflight` is the promise callers join. */
  datatype State = State(cache: Option<KeySet>, nextAttemptAt: Time, missedKids: map<string, Time>, inflight: Option<nat>)

  datatype Fetched = Keys(keys: seq<Jwk>, ttlMs: nat) | Failed

  datatype Answer = Key(key: Jwk) | UnknownKid | Unavailable | TooStale | Await(fetch: nat)

  /** `key` is the first of that id. */
  predicate IsFirst(keys: seq<Jwk>, kid: string, key: Jwk) {
    exists i :: 0 <= i < |keys| && keys[i] == key && key.kid == kid && forall j :: 0 <= j < i ==> keys[j].kid != kid
  }

  function FindKey(keys: seq<Jwk>, kid: string): (r: Option<Jwk>)
    ensures r.Some? ==> IsFirst(keys, kid, r.value)
    ensures r.None? <==> forall k :: k in keys ==> k.kid != kid
  {
    if keys == [] then None
    else if keys[0].kid == kid then Some(keys[0])
    else
      assert keys == [keys[0]] + keys[1..];
      var found := FindKey(keys[1..], kid);
      assert found.Some? ==> IsFirst(keys, kid, found.value) by {
        if found.Some? {
          var i :| 0 <= i < |keys[1..]| && keys[1..][i] == found.value && forall j :: 0 <= j < i ==> keys[1..][j].kid != kid;
          assert keys[i + 1] == found.value;
          assert forall j :: 1 <= j < i + 1 ==> keys[j] == keys[1..][j - 1];
        }
      }
      found
  }

  function Cached(s: State, kid: string): Option<Jwk> {
    if s.cache.None? then None else FindKey(s.cache.value.keys, kid)
  }

  function Serve(s: State, kid: string, now: Time, maxStaleMs: nat): Answer {
    if s.cache.None? then Unavailable
    else if now - s.cache.value.fetchedAt > maxStaleMs then TooStale
    else if Cached(s, kid).None? then UnknownKid else Key(Cached(s, kid).value)
  }

  predicate IsFresh(s: State, now: Time) {
    s.cache.Some? && now < s.cache.value.expiresAt
  }

  predicate RecentlyMissed(s: State, kid: string, now: Time) {
    Cached(s, kid).None? && IsFresh(s, now) && kid in s.missedKids && now - s.missedKids[kid] < MISSED_KID_TTL_MS
  }

  /** getKey up to its await; `next` is the number of the fetch it would start. */
  function Asked(s: State, kid: string, now: Time, maxStaleMs: nat, next: nat): (State, Answer) {
    if Cached(s, kid).Some? && IsFresh(s, now) then (s, Key(Cached(s, kid).value))
    else if s.inflight.Some? then (s, Await(s.inflight.value))
    else if RecentlyMissed(s, kid, now) || now < s.nextAttemptAt then (s, Serve(s, kid, now, maxStaleMs))
    else (s.(nextAttemptAt := now + MIN_REFRESH_INTERVAL_MS, inflight := Some(next)), Await(next))
  }

  /** The fetch begun at `startedAt` has ended. */
  function Settled(s: State, startedAt: Time, r: Fetched, now: Time, maxStaleMs: nat): State {
    match r
    case Keys(keys, ttlMs) =>
      s.(cache := Some(KeySet(keys, now, now + if ttlMs < maxStaleMs then ttlMs else maxStaleMs)), missedKids := map[])
    case Failed =>
      s.(nextAttemptAt := if s.nextAttemptAt > startedAt + FAILURE_BACKOFF_MS then s.nextAttemptAt else startedAt + FAILURE_BACKOFF_MS)
  }

  function StillMissed(missed: map<string, Time>, now: Time): map<string, Time> {
    map k | k in missed && now - missed[k] < MISSED_KID_TTL_MS :: missed[k]
  }

  function Noted(missed: map<string, Time>, kid: string, now: Time): map<string, Time> {
    var kept := if |missed| < MAX_MISSED_KIDS then missed
                else if |StillMissed(missed, now)| < MAX_MISSED_KIDS then StillMissed(missed, now) else map[];
    kept[kid := now]
  }

  /** getKey after its await. */
  function Resumed(s: State, kid: string, ok: bool, after: Time, maxStaleMs: nat): (State, Answer) {
    if !ok then (s, Serve(s, kid, after, maxStaleMs))
    else if Cached(s, kid).Some? then (s, Key(Cached(s, kid).value))
    else (s.(missedKids := Noted(s.missedKids, kid, after)), UnknownKid)
  }

  // ---------------------------------------------------------------- the object

  class Cache {
    const maxStaleMs: nat
    var cache: Option<KeySet>
    var nextAttemptAt: Time
    var missedKids: map<string, Time>
    var inflight: Option<nat>

    function Snapshot(): State
      reads this
    {
      State(cache, nextAttemptAt, missedKids, inflight)
    }

    constructor (maxStaleMs: nat)
      ensures Snapshot() == State(None, 0, map[], None) && this.maxStaleMs == maxStaleMs
    {
      this.maxStaleMs := maxStaleMs;
      cache, nextAttemptAt, missedKids, inflight := None, 0, map[], None;
    }

    method GetKey(kid: string, now: Time, next: nat) returns (answer: Answer)
      modifies this
      ensures (Snapshot(), answer) == Asked(old(Snapshot()), kid, now, maxStaleMs, next)
    {
      var isFresh := cache.Some? && now < cache.value.expiresAt;
      var cached := if cache.None? then None else FindKey(cache.value.keys, kid);
      if cached.Some? && isFresh { return Key(cached.value); }
      if inflight.None? {
        var recentlyMissed := cached.None? && isFresh && kid in missedKids && now - missedKids[kid] < MISSED_KID_TTL_MS;
        if recentlyMissed || now < nextAttemptAt {
          if cache.None? { return Unavailable; }
          if now - cache.value.fetchedAt > maxStaleMs { return TooStale; }
          return if cached.None? then UnknownKid else Key(cached.value);
        }
        nextAttemptAt := now + MIN_REFRESH_INTERVAL_MS;
        inflight := Some(next);
      }
      answer := Await(inflight.value);
    }

    method Settle(startedAt: Time, r: Fetched, now: Time)
      modifies this
      ensures Snapshot() == Settled(old(Snapshot()), startedAt, r, now, maxStaleMs)
    {
      match r
      case Keys(keys, ttlMs) =>
        cache := Some(KeySet(keys, now, now + if ttlMs < maxStaleMs then ttlMs else maxStaleMs));
        missedKids := map[];
      case Failed =>
        if nextAttemptAt < startedAt + FAILURE_BACKOFF_MS { nextAttemptAt := startedAt + FAILURE_BACKOFF_MS; }
    }

    method Resume(kid: string, ok: bool, after: Time) returns (answer: Answer)
      modifies this
      ensures (Snapshot(), answer) == Resumed(old(Snapshot()), kid, ok, after, maxStaleMs)
    {
      if !ok {
        if cache.None? { return Unavailable; }
        if after - cache.value.fetchedAt > maxStaleMs { return TooStale; }
      }
      var key := if cache.None? then None else FindKey(cache.value.keys, kid);
      if key.None? && ok { NoteMiss(kid, after); }
      answer := if key.None? then UnknownKid else Key(key.value);
    }

    method NoteMiss(kid: string, now: Time)
      modifies this`missedKids
      ensures missedKids == Noted(old(missedKids), kid, now)
    {
      if |missedKids| >= MAX_MISSED_KIDS {
        var rest := missedKids.Keys;
        while rest != {}
          invariant rest <= missedKids.Keys <= old(missedKids).Keys
          invariant forall k :: k in missedKids ==> missedKids[k] == old(missedKids)[k]
          invariant forall k :: k in old(missedKids) && k !in rest ==> (k in missedKids <==> now - old(missedKids)[k] < MISSED_KID_TTL_MS)
          decreases rest
        {
          var k :| k in rest;
          if now - missedKids[k] >= MISSED_KID_TTL_MS { missedKids := missedKids - {k}; }
          rest := rest - {k};
        }
        assert missedKids == StillMissed(old(missedKids), now);
        if |missedKids| >= MAX_MISSED_KIDS { missedKids := map[]; }
      }
      missedKids := missedKids[kid := now];
    }
  }

  // ---------------------------------------------------------------- many calls at once

  /** A call waiting for a fetch; `early` says the fetch was still running when it joined. */
  datatype Call = Call(kid: string, at: Time, fetch: nat, early: bool)

  /** `starts` are the start times of all fetches, by number; `verdicts` how each ended;
      `sets` all key sets ever fetched and `setBy` the fetch of the last (history). */
  datatype System = System(
    now: Time, maxStaleMs: nat, state: State, running: set<nat>, calls: map<nat, Call>,
    starts: seq<Time>, verdicts: map<nat, bool>, sets: seq<KeySet>, setBy: nat)

  datatype Step = Tick(ms: nat) | Ask(call: nat, kid: string) | Settle(fetch: nat, r: Fetched) | Clear | Resume(call: nat)

  predicate Ready(s: System, call: nat) {
    call in s.calls && s.calls[call].fetch in s.verdicts && s.state.inflight != Some(s.calls[call].fetch)
  }

  /** What the step answers to its caller, if it is the end of a call. */
  function AnswerOf(s: System, step: Step): Option<Answer> {
    match step
    case Ask(_, kid) => Some(Asked(s.state, kid, s.now, s.maxStaleMs, |s.starts|).1)
    case Resume(call) =>
      if !Ready(s, call) then None
      else Some(Resumed(s.state, s.calls[call].kid, s.verdicts[s.calls[call].fetch], s.now, s.maxStaleMs).1)
    case _ => None
  }

  function Apply(s: System, step: Step): System {
    match step
    case Tick(ms) => s.(now := s.now + ms)
    case Ask(call, kid) =>
      var (state, answer) := Asked(s.state, kid, s.now, s.maxStaleMs, |s.starts|);
      if call in s.calls then s
      else if !answer.Await? then s.(state := state)
      else if s.state.inflight.None? then
        s.(state := state, running := s.running + {|s.starts|}, starts := s.starts + [s.now],
           calls := s.calls[call := Call(kid, s.now, answer.fetch, true)])
      else s.(calls := s.calls[call := Call(kid, s.now, answer.fetch, answer.fetch in s.running)])
    case Settle(f, r) =>
      if f !in s.running || f >= |s.starts| then s
      else
        var state := Settled(s.state, s.starts[f], r, s.now, s.maxStaleMs);
        var s' := s.(state := state, running := s.running - {f}, verdicts := s.verdicts[f := r.Keys?]);
        if r.Keys? then s'.(sets := s.sets + [state.cache.value], setBy := f) else s'
    case Clear =>
      if s.state.inflight.Some? && s.state.inflight.value in s.verdicts then s.(state := s.state.(inflight := None)) else s
    case Resume(call) =>
      if !Ready(s, call) then s
      else s.(state := Resumed(s.state, s.calls[call].kid, s.verdicts[s.calls[call].fetch], s.now, s.maxStaleMs).0, calls := s.calls - {call})
  }

  function At(s: System, run: seq<Step>, n: nat): System
    requires n <= |run|
  {
    if n == 0 then s else Apply(At(s, run, n - 1), run[n - 1])
  }

  function Init(now: Time, maxStaleMs: nat): System {
    System(now, maxStaleMs, State(None, 0, map[], None), {}, map[], [], map[], [], 0)
  }

  predicate FailedFetch(s: System, f: nat) {
    f in s.verdicts && !s.verdicts[f]
  }

  /** How soon after fetch `f` the next one may start. */
  function Pause(s: System, f: nat): int {
    if FailedFetch(s, f) then FAILURE_BACKOFF_MS else MIN_REFRESH_INTERVAL_MS
  }

  ghost predicate Paced(s: System) {
    && (forall i :: 0 <= i < |s.starts| - 1 ==> s.starts[i + 1] >= s.starts[i] + Pause(s, i))
    && (s.starts != [] ==> s.starts[|s.starts| - 1] <= s.now && s.state.nextAttemptAt == s.starts[|s.starts| - 1] + Pause(s, |s.starts| - 1))
    && (s.starts == [] ==> s.state.nextAttemptAt == 0)
  }

  /** One fetch runs at most, and it is the last one started and the one callers join. */
  ghost predicate SingleFlight(s: System) {
    && (forall f :: f in s.running ==> s.state.inflight == Some(f) && f !in s.verdicts)
    && (forall f :: f in s.verdicts ==> f < |s.starts|)
    && (forall f :: 0 <= f < |s.starts| ==> f in s.running || f in s.verdicts)
    && (s.state.inflight.Some? ==> s.state.inflight.value == |s.starts| - 1)
  }

  ghost predicate Current(s: System) {
    && (s.state.cache.None? ==> s.sets == [] && forall f :: f in s.verdicts ==> !s.verdicts[f])
    && (s.state.cache.Some? ==>
          && s.sets != [] && s.sets[|s.sets| - 1] == s.state.cache.value
          && s.state.cache.value.fetchedAt <= s.now
          && s.state.cache.value.expiresAt <= s.state.cache.value.fetchedAt + s.maxStaleMs
          && forall f :: f in s.verdicts && s.verdicts[f] ==> f <= s.setBy)
  }

  ghost predicate CallsOk(s: System) {
    forall c :: c in s.calls ==> CallOk(s, s.calls[c])
  }

  predicate CallOk(s: System, c: Call) {
    && c.fetch < |s.starts| && c.at <= s.now
    && (c.early && c.fetch in s.verdicts && s.verdicts[c.fetch] ==> s.state.cache.Some? && s.state.cache.value.fetchedAt >= c.at)
  }

  ghost predicate Inv(s: System) {
    Paced(s) && SingleFlight(s) && Current(s) && CallsOk(s) && |s.state.missedKids| <= MAX_MISSED_KIDS
  }

  lemma NotedSize(missed: map<string, Time>, kid: string, now: Time)
    requires |missed| <= MAX_MISSED_KIDS
    ensures |Noted(missed, kid, now)| <= MAX_MISSED_KIDS
  {
    var kept := if |missed| < MAX_MISSED_KIDS then missed
                else if |StillMissed(missed, now)| < MAX_MISSED_KIDS then StillMissed(missed, now) else map[];
    assert kept[kid := now].Keys == kept.Keys + {kid};
    assert |kept[kid := now].Keys| <= |kept.Keys| + 1;
  }

  lemma AskKeeps(s: System, call: nat, kid: string)
    requires Inv(s)
    ensures Inv(Apply(s, Ask(call, kid)))
  {
    hide FindKey, RecentlyMissed, IsFresh;
    AskPaced(s, call, kid);
    AskSingle(s, call, kid);
    hide Paced, SingleFlight;
  }

  lemma AskPaced(s: System, call: nat, kid: string)
    requires Paced(s) && SingleFlight(s)
    ensures Paced(Apply(s, Ask(call, kid)))
  {
    hide FindKey, RecentlyMissed, IsFresh, Cached;
  }

  lemma AskSingle(s: System, call: nat, kid: string)
    requires SingleFlight(s)
    ensures SingleFlight(Apply(s, Ask(call, kid)))
  {
    hide FindKey, RecentlyMissed, IsFresh, Cached;
  }

  lemma SettleKeeps(s: System, f: nat, r: Fetched)
    requires Inv(s)
    ensures Inv(Apply(s, Settle(f, r)))
  {
    SettlePaced(s, f, r);
    SettleCalls(s, f, r);
    hide Paced, CallsOk;
  }

  lemma SettlePaced(s: System, f: nat, r: Fetched)
    requires Paced(s) && SingleFlight(s)
    ensures Paced(Apply(s, Settle(f, r)))
  {
    var s' := Apply(s, Settle(f, r));
    forall i | 0 <= i < |s.starts| && i != f ensures Pause(s', i) == Pause(s, i) {
    }
  }

  lemma SettleCalls(s: System, f: nat, r: Fetched)
    requires Inv(s)
    ensures CallsOk(Apply(s, Settle(f, r)))
  {
    hide Paced;
    var s' := Apply(s, Settle(f, r));
    forall c | c in s'.calls ensures CallOk(s', s'.calls[c]) {
      assert CallOk(s, s.calls[c]);
    }
  }

  lemma ResumeKeeps(s: System, call: nat)
    requires Inv(s)
    ensures Inv(Apply(s, Resume(call)))
  {
    if Ready(s, call) { NotedSize(s.state.missedKids, s.calls[call].kid, s.now); }
    hide Noted, FindKey;
  }

  lemma StepKeepsInv(s: System, step: Step)
    requires Inv(s)
    ensures Inv(Apply(s, step))
  {
    match step
    case Ask(call, kid) => AskKeeps(s, call, kid);
    case Settle(f, r) => SettleKeeps(s, f, r);
    case Resume(call) => ResumeKeeps(s, call);
    case _ =>
  }

  lemma {:induction false} RunKeepsInv(s: System, run: seq<Step>, n: nat)
    requires Inv(s) && n <= |run|
    ensures Inv(At(s, run, n))
  {
    hide Apply, Inv;
    if n > 0 {
      RunKeepsInv(s, run, n - 1);
      StepKeepsInv(At(s, run, n - 1), run[n - 1]);
    }
  }

  // ---------------------------------------------------------------- promises

  /** At most one fetch is in flight, fetches start at least a second apart and five seconds
      after the start of one that failed, and the misses remembered are bounded. */
  lemma FetchesArePaced(now: Time, maxStaleMs: nat, run: seq<Step>, n: nat)
    requires n <= |run|
    ensures var s := At(Init(now, maxStaleMs), run, n);
      && |s.running| <= 1 && |s.state.missedKids| <= 1000
      && forall i :: 0 <= i < |s.starts| - 1 ==> s.starts[i + 1] >= s.starts[i] + if FailedFetch(s, i) then 5000 else 1000
  {
    hide Apply, Init, SingleFlight, Current, CallsOk;
    EmptyInv(now, maxStaleMs);
    RunKeepsInv(Init(now, maxStaleMs), run, n);
    hide At;
    AtMostOneRuns(At(Init(now, maxStaleMs), run, n));
  }

  lemma EmptyInv(now: Time, maxStaleMs: nat)
    ensures Inv(Init(now, maxStaleMs))
  {
  }

  lemma AtMostOneRuns(s: System)
    requires SingleFlight(s)
    ensures |s.running| <= 1
  {
    if f :| f in s.running {
      assert s.running == {f};
    }
  }

  lemma {:induction false} StartsSpread(s: System, i: nat, j: nat)
    requires Paced(s) && i <= j < |s.starts|
    ensures s.starts[j] - s.starts[i] >= (j - i) * 1000
  {
    if i < j { StartsSpread(s, i, j - 1); }
  }

  /** Any window of `w` milliseconds holds at most `w / 1000 + 1` fetch starts. */
  lemma WindowBound(now: Time, maxStaleMs: nat, run: seq<Step>, n: nat, from: Time, w: nat, i: nat, j: nat)
    requires n <= |run|
    requires var s := At(Init(now, maxStaleMs), run, n); i < j <= |s.starts| && forall k :: i <= k < j ==> from <= s.starts[k] <= from + w
    ensures j - i <= w / 1000 + 1
  {
    RunKeepsInv(Init(now, maxStaleMs), run, n);
    StartsSpread(At(Init(now, maxStaleMs), run, n), i, j - 1);
  }

  /** The key id that the step's call asked for. */
  function KidOf(s: System, step: Step): string
    requires step.Ask? || (step.Resume? && step.call in s.calls)
  {
    if step.Ask? then step.kid else s.calls[step.call].kid
  }

  /** Every key handed out is the first of the id asked for in the last set fetched; that set
      was fetched by the fetch the call started or joined, which succeeded, or a later one, and
      during the call when the call came before that fetch ended; or it was at most maxStaleMs
      old when the call decided. */
  lemma ReturnedKeysAreCurrent(now: Time, maxStaleMs: nat, run: seq<Step>, n: nat)
    requires n < |run|
    ensures var s := At(Init(now, maxStaleMs), run, n);
      var answer := AnswerOf(s, run[n]);
      answer.Some? && answer.value.Key? ==>
        && s.sets != []
        && var latest := s.sets[|s.sets| - 1];
        && IsFirst(latest.keys, KidOf(s, run[n]), answer.value.key)
        && (|| s.now - latest.fetchedAt <= s.maxStaleMs
            || (run[n].Resume? && s.verdicts[s.calls[run[n].call].fetch] && s.setBy >= s.calls[run[n].call].fetch
                && (s.calls[run[n].call].early ==> latest.fetchedAt >= s.calls[run[n].call].at)))
  {
    EmptyInv(now, maxStaleMs);
    RunKeepsInv(Init(now, maxStaleMs), run, n);
    hide Noted, Init, Apply, At;
  }

  predicate Has(set': KeySet, kid: string) {
    exists k :: k in set'.keys && k.kid == kid
  }

  /** A call is told that keys are unavailable only with no set ever fetched, that they are stale
      only with the last set too old and, after a fetch, only when that failed, and that a key is
      unknown only when the last set does not have it. */
  lemma RefusalsAreReal(now: Time, maxStaleMs: nat, run: seq<Step>, n: nat)
    requires n < |run|
    ensures var s := At(Init(now, maxStaleMs), run, n);
      var answer := AnswerOf(s, run[n]);
      && (answer == Some(Unavailable) ==> s.sets == [])
      && (answer == Some(TooStale) ==> s.sets != [] && s.now - s.sets[|s.sets| - 1].fetchedAt > s.maxStaleMs
                                       && (run[n].Resume? ==> !s.verdicts[s.calls[run[n].call].fetch]))
      && (answer == Some(UnknownKid) ==> s.sets != [] && !Has(s.sets[|s.sets| - 1], KidOf(s, run[n])))
  {
    EmptyInv(now, maxStaleMs);
    RunKeepsInv(Init(now, maxStaleMs), run, n);
    hide Noted, Init, Apply, At, IsFirst, Paced, CallsOk;
  }

  /** The last set fetched has the key and has not passed its time to live. */
  predicate HasFresh(s: System, kid: string) {
    s.sets != [] && s.now < s.sets[|s.sets| - 1].expiresAt && Has(s.sets[|s.sets| - 1], kid)
  }

  /** The last set is fresh, lacks the key, and a call missed it there less than five seconds ago. */
  predicate MissedLately(s: System, kid: string) {
    && s.sets != [] && s.now < s.sets[|s.sets| - 1].expiresAt && !Has(s.sets[|s.sets| - 1], kid)
    && kid in s.state.missedKids && s.now - s.state.missedKids[kid] < 5000
  }

  /** A second has passed since the last fetch started, or five if it failed. */
  predicate MayFetch(s: System) {
    var last := |s.starts| - 1;
    s.starts == [] || s.now >= s.starts[last] + if FailedFetch(s, last) then 5000 else 1000
  }

  /** A call is answered with its key at once when the last set has it and is fresh. Otherwise it
      joins the fetch in flight; with none, it starts one exactly when the key was not missed
      lately and the pace allows it, and is answered at once when not. */
  lemma WhenACallFetches(now: Time, maxStaleMs: nat, run: seq<Step>, n: nat)
    requires now >= 0 && n < |run| && run[n].Ask? && run[n].call !in At(Init(now, maxStaleMs), run, n).calls
    ensures AskDecided(At(Init(now, maxStaleMs), run, n), run[n], At(Init(now, maxStaleMs), run, n + 1))
  {
    EmptyInv(now, maxStaleMs);
    RunKeepsInv(Init(now, maxStaleMs), run, n);
    NotBefore(Init(now, maxStaleMs), run, 0, n);
    AskDecides(At(Init(now, maxStaleMs), run, n), run[n].call, run[n].kid);
    hide Apply, AskDecided, Inv;
  }

  predicate AskDecided(s: System, step: Step, s': System)
    requires step.Ask?
  {
    && AnswerOf(s, step).Some?
    && var answer := AnswerOf(s, step).value;
    && (HasFresh(s, step.kid) ==> answer.Key?)
    && (s'.starts == s.starts || s'.starts == s.starts + [s.now])
    && (s'.starts != s.starts <==> !HasFresh(s, step.kid) && s.state.inflight.None? && !MissedLately(s, step.kid) && MayFetch(s))
    && (answer.Await? <==> !HasFresh(s, step.kid) && (s.state.inflight.Some? || s'.starts != s.starts))
    && (answer.Await? ==> answer.fetch + 1 == |s'.starts| && step.call in s'.calls && s'.calls[step.call].kid == step.kid)
  }

  lemma AskDecides(s: System, call: nat, kid: string)
    requires Inv(s) && s.now >= 0 && call !in s.calls
    ensures AskDecided(s, Ask(call, kid), Apply(s, Ask(call, kid)))
  {
    hide CallsOk;
    assert s.state.cache.Some? ==> (Has(s.state.cache.value, kid) <==> Cached(s.state, kid).Some?);
    assert MayFetch(s) <==> s.now >= s.state.nextAttemptAt;
    hide Paced, MayFetch, Has, FindKey;
  }

  /** A set that was fetched counts from the moment it arrived, for its time to live but no longer
      than maxStaleMs; a failed fetch leaves the last set as it was. */
  lemma FetchedSetIsLast(now: Time, maxStaleMs: nat, run: seq<Step>, n: nat)
    requires n < |run| && run[n].Settle? && run[n].fetch in At(Init(now, maxStaleMs), run, n).running
    ensures var s, s' := At(Init(now, maxStaleMs), run, n), At(Init(now, maxStaleMs), run, n + 1);
      && run[n].fetch in s'.verdicts && (s'.verdicts[run[n].fetch] <==> run[n].r.Keys?)
      && (run[n].r.Failed? ==> s'.sets == s.sets)
      && (run[n].r.Keys? ==> |s'.sets| == |s.sets| + 1 && Arrived(s'.sets[|s.sets|], run[n].r, s.now, s.maxStaleMs) && s'.state.missedKids == map[])
  {
    EmptyInv(now, maxStaleMs);
    RunKeepsInv(Init(now, maxStaleMs), run, n);
    hide At;
  }

  predicate Arrived(set': KeySet, r: Fetched, now: Time, maxStaleMs: nat)
    requires r.Keys?
  {
    && set'.keys == r.keys && set'.fetchedAt == now
    && (set'.expiresAt == now + r.ttlMs || set'.expiresAt == now + maxStaleMs)
    && set'.expiresAt <= now + r.ttlMs && set'.expiresAt <= now + maxStaleMs
  }

  // ---------------------------------------------------------------- misses

  /** The step ends a call whose fetch succeeded without bringing its key. */
  predicate Misses(s: System, step: Step, kid: string) {
    && step.Resume? && Ready(s, step.call) && s.calls[step.call].kid == kid && s.verdicts[s.calls[step.call].fetch]
    && s.sets != [] && !Has(s.sets[|s.sets| - 1], kid)
  }

  /** What is remembered as missed was missed, at that time and in the last set fetched. */
  lemma {:induction false} MissesAreReal(now: Time, maxStaleMs: nat, run: seq<Step>, n: nat, kid: string) returns (m: nat)
    requires n <= |run| && kid in At(Init(now, maxStaleMs), run, n).state.missedKids
    ensures m < n && Misses(At(Init(now, maxStaleMs), run, m), run[m], kid)
    ensures At(Init(now, maxStaleMs), run, m).now == At(Init(now, maxStaleMs), run, n).state.missedKids[kid]
    ensures At(Init(now, maxStaleMs), run, m).sets == At(Init(now, maxStaleMs), run, n).sets
  {
    EmptyInv(now, maxStaleMs);
    RunKeepsInv(Init(now, maxStaleMs), run, n - 1);
    var s, s' := At(Init(now, maxStaleMs), run, n - 1), At(Init(now, maxStaleMs), run, n);
    MissStep(s, run[n - 1], kid);
    hide Apply, Inv, Misses;
    if kid in s.state.missedKids && s'.state.missedKids[kid] == s.state.missedKids[kid] && s'.sets == s.sets {
      m := MissesAreReal(now, maxStaleMs, run, n - 1, kid);
    } else {
      m := n - 1;
    }
  }

  lemma MissStep(s: System, step: Step, kid: string)
    requires Inv(s)
    ensures kid in Apply(s, step).state.missedKids ==>
      Apply(s, step).sets == s.sets && ((kid in s.state.missedKids && Apply(s, step).state.missedKids[kid] == s.state.missedKids[kid])
        || (Misses(s, step, kid) && Apply(s, step).state.missedKids[kid] == s.now))
    ensures Misses(s, step, kid) ==> kid in Apply(s, step).state.missedKids && Apply(s, step).state.missedKids[kid] == s.now
    ensures kid in s.state.missedKids && Apply(s, step).sets == s.sets && |s.state.missedKids| < 1000 ==>
      kid in Apply(s, step).state.missedKids && Apply(s, step).state.missedKids[kid] in {s.state.missedKids[kid], s.now}
  {
    hide Paced, CallsOk, SingleFlight;
    if step.Resume? { ResumeMisses(s, step.call, kid); } else { hide Misses; }
  }

  lemma ResumeMisses(s: System, call: nat, kid: string)
    requires Current(s)
    ensures var s', old' := Apply(s, Resume(call)), s.state.missedKids;
      && s'.sets == s.sets
      && (Misses(s, Resume(call), kid) ==> kid in s'.state.missedKids && s'.state.missedKids[kid] == s.now)
      && (!Misses(s, Resume(call), kid) && kid in s'.state.missedKids ==> kid in old' && s'.state.missedKids[kid] == old'[kid])
      && (kid in old' && |old'| < 1000 ==> kid in s'.state.missedKids && s'.state.missedKids[kid] in {old'[kid], s.now})
  {
  }

  /** And a miss is remembered, at least until another set is fetched or too many are. */
  lemma {:induction false} MissIsRemembered(s: System, run: seq<Step>, m: nat, n: nat, kid: string)
    requires Inv(s) && m < n <= |run| && Misses(At(s, run, m), run[m], kid)
    requires forall k: nat :: m < k < n ==> Keeps(At(s, run, k), run[k])
    ensures kid in At(s, run, n).state.missedKids && At(s, run, n).state.missedKids[kid] >= At(s, run, m).now
  {
    hide Apply, Inv, Misses;
    RunKeepsInv(s, run, n - 1);
    MissStep(At(s, run, n - 1), run[n - 1], kid);
    if m < n - 1 {
      MissIsRemembered(s, run, m, n - 1, kid);
      NotBefore(s, run, m, n - 1);
    }
  }

  /** A further miss never pushes out one of the last five seconds, unless there are a thousand of
      them; those older go when room is needed. */
  lemma ManyMisses(missed: map<string, Time>, kid: string, now: Time)
    ensures var recent := set k | k in missed && now - missed[k] < 5000;
      var after := Noted(missed, kid, now);
      && kid in after && after[kid] == now
      && (forall k :: k in after && k != kid ==> k in missed && after[k] == missed[k])
      && (|recent| < 1000 ==> forall k :: k in recent ==> k in after)
      && (|missed| < 1000 ==> forall k :: k in missed ==> k in after)
      && (|missed| >= 1000 ==> forall k :: k in after && k != kid ==> k in recent)
      && (|missed| >= 1000 && |recent| >= 1000 ==> after == map[kid := now])
  {
    assert StillMissed(missed, now).Keys == set k | k in missed && now - missed[k] < 5000;
  }

  /** Once a fetch has ended and its clean-up has run, it is in nobody's way. */
  lemma EndedFetchFrees(now: Time, maxStaleMs: nat, run: seq<Step>, n: nat)
    requires n < |run| && run[n].Clear?
    ensures var s' := At(Init(now, maxStaleMs), run, n + 1);
      s'.state.inflight.Some? ==> s'.state.inflight.value in s'.running
  {
    EmptyInv(now, maxStaleMs);
    RunKeepsInv(Init(now, maxStaleMs), run, n);
    hide At;
  }

  /** The step fetches no set, and there is room for a further miss. */
  predicate Keeps(s: System, step: Step) {
    Apply(s, step).sets == s.sets && |s.state.missedKids| < 1000
  }

  lemma {:induction false} NotBefore(s: System, run: seq<Step>, m: nat, n: nat)
    requires m <= n <= |run|
    ensures At(s, run, m).now <= At(s, run, n).now
  {
    if m < n { NotBefore(s, run, m, n - 1); }
  }
}
