/** The replay store of client assertions (client-assertion.ts). The library's expiry check
    and the bookkeeping after it are one step; `exp` may be any number, `now` is in whole
    milliseconds, and the library compares whole seconds. */
module JtiStore {
  import opened Basics

  const MAX_ASSERTION_LIFETIME_S := 300.0
  const CLOCK_SKEW_S := 60.0
  const MAX_SEEN_JTI := 50000

  /** The digest of client and jti is taken to be injective. */
  datatype JtiKey = JtiKey(client: string, jti: string)

  /** An assertion that is otherwise in order: signature, issuer, subject, audience. */
  datatype Assertion = Assertion(key: JtiKey, exp: real, iat: Option<real>)

  datatype Answer = Accepted | Expired | TooLong | IssuedInFuture | Replayed | StoreFull

  function Seconds(now: nat): real {
    (now / 1000) as real
  }

  /** jwtVerify with a clock tolerance. */
  predicate Verifies(a: Assertion, now: nat) {
    a.exp > Seconds(now) - CLOCK_SKEW_S
  }

  function EntryExpiry(a: Assertion): real {
    a.exp * 1000.0 + CLOCK_SKEW_S * 1000.0
  }

  type Seen = map<JtiKey, real>

  function Swept(seen: Seen, now: nat): Seen {
    map k | k in seen && !(seen[k] <= now as real) :: seen[k]
  }

  function Presented(seen: Seen, a: Assertion, now: nat): (Seen, Answer) {
    if !Verifies(a, now) then (seen, Expired)
    else if a.exp - Seconds(now) > MAX_ASSERTION_LIFETIME_S + CLOCK_SKEW_S then (seen, TooLong)
    else if a.iat.Some? && a.iat.value - Seconds(now) > CLOCK_SKEW_S then (seen, IssuedInFuture)
    else if a.key in seen then (seen, Replayed)
    else
      var room := if |seen| >= MAX_SEEN_JTI then Swept(seen, now) else seen;
      if |room| >= MAX_SEEN_JTI then (room, StoreFull) else (room[a.key := EntryExpiry(a)], Accepted)
  }

  class Store {
    var seenJti: Seen

    constructor ()
      ensures seenJti == map[]
    {
      seenJti := map[];
    }

    method Sweep(now: nat)
      modifies this
      ensures seenJti == Swept(old(seenJti), now)
    {
      var rest := seenJti.Keys;
      while rest != {}
        invariant rest <= seenJti.Keys <= old(seenJti).Keys
        invariant forall k :: k in seenJti ==> seenJti[k] == old(seenJti)[k]
        invariant forall k :: k in old(seenJti) && k !in rest ==> (k in seenJti <==> !(old(seenJti)[k] <= now as real))
        decreases rest
      {
        var k :| k in rest;
        if seenJti[k] <= now as real { seenJti := seenJti - {k}; }
        rest := rest - {k};
      }
      assert seenJti == Swept(old(seenJti), now);
    }

    method Present(a: Assertion, now: nat) returns (answer: Answer)
      modifies this
      ensures (seenJti, answer) == Presented(old(seenJti), a, now)
    {
      if !(a.exp > Seconds(now) - CLOCK_SKEW_S) { return Expired; }
      var nowS := Seconds(now);
      if a.exp - nowS > MAX_ASSERTION_LIFETIME_S + CLOCK_SKEW_S { return TooLong; }
      if a.iat.Some? && a.iat.value - nowS > CLOCK_SKEW_S { return IssuedInFuture; }
      if a.key in seenJti { return Replayed; }
      if |seenJti| >= MAX_SEEN_JTI {
        Sweep(now);
        if |seenJti| >= MAX_SEEN_JTI { return StoreFull; }
      }
      seenJti := seenJti[a.key := EntryExpiry(a)];
      answer := Accepted;
    }
  }

  // ---------------------------------------------------------------- the verification window

  /** The least whole number of seconds not below `x`. */
  function Ceil(x: real): int {
    -((-x).Floor)
  }

  /** The entry lives at least as long as the assertion verifies. */
  ghost predicate OutlivesWindow(a: Assertion) {
    forall now: nat :: Verifies(a, now) ==> EntryExpiry(a) > now as real
  }

  lemma WindowEnd(a: Assertion, now: nat)
    ensures Verifies(a, now) <==> now <= 1000 * (Ceil(a.exp) + 60) - 1
  {
    var s := now / 1000;
    assert a.exp > (s - 60) as real <==> Ceil(a.exp) > s - 60;
  }

  /** It does so exactly when `exp` is a whole second, or so close below one that no whole
      millisecond lies between; for any other fraction a sweep can drop the entry early. */
  lemma WhenEntryOutlives(a: Assertion)
    requires a.exp > -CLOCK_SKEW_S
    ensures OutlivesWindow(a) <==> a.exp * 1000.0 > (1000 * Ceil(a.exp) - 1) as real
  {
    var last: nat := 1000 * (Ceil(a.exp) + 60) - 1;
    WindowEnd(a, last);
    if a.exp * 1000.0 > (1000 * Ceil(a.exp) - 1) as real {
      forall now: nat | Verifies(a, now) ensures EntryExpiry(a) > now as real {
        WindowEnd(a, now);
      }
    }
  }

  lemma WholeSecondsOutlive(a: Assertion, s: int)
    requires a.exp == s as real && s > -60
    ensures OutlivesWindow(a)
  {
    assert Ceil(a.exp) == s;
    WhenEntryOutlives(a);
  }

  // ---------------------------------------------------------------- runs

  datatype Event = Present(a: Assertion, now: nat) | Sweep(now: nat)

  function After(seen: Seen, e: Event): Seen {
    match e
    case Present(a, now) => Presented(seen, a, now).0
    case Sweep(now) => Swept(seen, now)
  }

  function SeenAt(seen: Seen, run: seq<Event>, n: nat): Seen
    requires n <= |run|
  {
    if n == 0 then seen else After(SeenAt(seen, run, n - 1), run[n - 1])
  }

  ghost predicate InOrder(run: seq<Event>) {
    forall i, j :: 0 <= i <= j < |run| ==> run[i].now <= run[j].now
  }

  predicate Accepts(seen: Seen, e: Event) {
    e.Present? && Presented(seen, e.a, e.now).1 == Accepted
  }

  lemma SweptSize(seen: Seen, now: nat)
    ensures |Swept(seen, now)| <= |seen|
  {
    SubsetSize(Swept(seen, now).Keys, seen.Keys);
  }

  lemma {:induction false} StoreIsBounded(run: seq<Event>, n: nat)
    requires n <= |run|
    ensures |SeenAt(map[], run, n)| <= 50000
  {
    if n > 0 {
      StoreIsBounded(run, n - 1);
      SweptSize(SeenAt(map[], run, n - 1), run[n - 1].now);
    }
  }

  function Live(seen: Seen, now: nat): set<JtiKey> {
    set k | k in seen && seen[k] > now as real
  }

  /** An assertion is accepted exactly when it is at most a minute past its expiry and at most six
      minutes before it, is dated at most a minute ahead, was not seen, and fewer than 50000
      entries are live. Whatever the answer, no live entry goes, and an accepted one is noted
      until a minute past its expiry. */
  lemma WhenAccepted(seen: Seen, a: Assertion, now: nat)
    ensures var (after, answer) := Presented(seen, a, now);
      var nowS := (now / 1000) as real;
      && (answer == Accepted <==>
            && nowS - 60.0 < a.exp <= nowS + 360.0
            && (a.iat.Some? ==> a.iat.value <= nowS + 60.0)
            && a.key !in seen
            && |Live(seen, now)| < 50000)
      && (forall k :: k in Live(seen, now) ==> k in after && after[k] == seen[k])
      && (answer == Accepted ==> a.key in after && after[a.key] == (a.exp + 60.0) * 1000.0)
      && (forall k :: k in after && k != a.key ==> k in seen && after[k] == seen[k])
      && (answer != Accepted && a.key in after ==> a.key in seen)
  {
    assert Swept(seen, now).Keys == Live(seen, now);
    SubsetSize(Live(seen, now), seen.Keys);
  }

  /** An entry of an accepted assertion goes within 420 seconds of its acceptance. */
  lemma EntriesExpireSoon(seen: Seen, a: Assertion, now: nat)
    requires Accepts(seen, Present(a, now))
    ensures var after := Presented(seen, a, now).0;
      a.key in after && (now as real) - 1000.0 < after[a.key] <= now as real + 420000.0
  {
  }

  lemma {:induction false} EntryStays(seen: Seen, run: seq<Event>, i: nat, n: nat, key: JtiKey)
    requires InOrder(run) && i <= n < |run| && key in SeenAt(seen, run, i)
    requires SeenAt(seen, run, i)[key] > run[n].now as real
    ensures key in SeenAt(seen, run, n) && SeenAt(seen, run, n)[key] == SeenAt(seen, run, i)[key]
    decreases n - i
  {
    if i < n {
      EntryStays(seen, run, i, n - 1, key);
    }
  }

  /** No assertion whose entry outlives its window is accepted twice, whatever sweeps and
      other assertions come in between; in particular none with a whole-second `exp`. */
  lemma {:induction false} NoReplay(seen: Seen, run: seq<Event>, i: nat, j: nat)
    requires InOrder(run) && i < j < |run|
    requires Accepts(SeenAt(seen, run, i), run[i]) && Accepts(SeenAt(seen, run, j), run[j])
    requires OutlivesWindow(run[i].a)
    ensures run[j].a != run[i].a
  {
    AcceptanceStores(SeenAt(seen, run, i), run[i]);
    AcceptanceStores(SeenAt(seen, run, j), run[j]);
    assert SeenAt(seen, run, i + 1) == After(SeenAt(seen, run, i), run[i]);
    hide SeenAt, After, Accepts, Verifies, EntryExpiry;
    if run[j].a == run[i].a {
      assert EntryExpiry(run[i].a) > run[j].now as real;
      hide OutlivesWindow;
      EntryStays(seen, run, i + 1, j, run[i].a.key);
    }
  }

  lemma AcceptanceStores(seen: Seen, e: Event)
    requires Accepts(seen, e)
    ensures Verifies(e.a, e.now) && e.a.key !in seen
    ensures e.a.key in After(seen, e) && After(seen, e)[e.a.key] == EntryExpiry(e.a)
  {
  }

  /** Every other assertion that a client can still present in the last moment of its window can
      be: once its entry is swept it verifies again. */
  lemma ReplayOtherwise(a: Assertion) returns (run: seq<Event>)
    requires a.exp > -CLOCK_SKEW_S && !OutlivesWindow(a) && IssuedInTime(a)
    ensures |run| == 3 && Replays(run, 0, 2, a)
  {
    WhenEntryOutlives(a);
    var last: nat := 1000 * (Ceil(a.exp) + 60) - 1;
    WindowEnd(a, last);
    run := [Present(a, last), Sweep(last), Present(a, last)];
    assert SeenAt(map[], run, 1) == After(map[], run[0]);
    assert SeenAt(map[], run, 2) == Swept(SeenAt(map[], run, 1), last);
    assert SeenAt(map[], run, 2) == map[];
  }

  /** Its time of issue, if it names one, is not rejected as future up to the end of its window. */
  predicate IssuedInTime(a: Assertion) {
    a.iat.Some? ==> a.iat.value <= (Ceil(a.exp) + 119) as real
  }

  ghost predicate Replays(run: seq<Event>, i: nat, j: nat, a: Assertion) {
    && InOrder(run) && i < j < |run| && run[i].Present? && run[j].Present? && run[i].a == a && run[j].a == a
    && Accepts(SeenAt(map[], run, i), run[i]) && Accepts(SeenAt(map[], run, j), run[j])
  }

  lemma ReplayTakes(run: seq<Event>, i: nat, j: nat, a: Assertion)
    requires Replays(run, i, j, a)
    ensures !OutlivesWindow(a) && IssuedInTime(a)
  {
    hide OutlivesWindow, SeenAt, IssuedInTime;
    if OutlivesWindow(a) { NoReplay(map[], run, i, j); }
    AcceptedInTime(SeenAt(map[], run, j), a, run[j].now);
  }

  lemma AcceptedInTime(seen: Seen, a: Assertion, now: nat)
    requires Accepts(seen, Present(a, now))
    ensures IssuedInTime(a)
  {
    AcceptanceStores(seen, Present(a, now));
    WhenAccepted(seen, a, now);
    WindowEnd(a, now);
    hide Presented, Verifies, Ceil, Live;
    assert now / 1000 <= Ceil(a.exp) + 59;
    assert (now / 1000) as real <= (Ceil(a.exp) + 59) as real;
  }

  /** Some run of a fresh process accepts the assertion twice exactly when its entry does not
      outlive its window, and it is not dated beyond that window. (One that expired a minute
      before the epoch never verifies.) */
  lemma WhenReplayable(a: Assertion)
    requires a.exp > -CLOCK_SKEW_S
    ensures (exists run: seq<Event>, i: nat, j: nat :: Replays(run, i, j, a)) <==> !OutlivesWindow(a) && IssuedInTime(a)
  {
    hide OutlivesWindow, Replays, IssuedInTime;
    if run: seq<Event>, i: nat, j: nat :| Replays(run, i, j, a) { ReplayTakes(run, i, j, a); }
    if !OutlivesWindow(a) && IssuedInTime(a) {
      var run := ReplayOtherwise(a);
      assert Replays(run, 0, 2, a);
    }
  }
}
