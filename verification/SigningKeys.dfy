/** The life of signing keys (signing-keys.ts): creation, rotation and signing run
    concurrently, each database statement or transaction one step. The database's unique
    index admits one row without a retirement time. */
module SigningKeys {
  import opened Basics

  const RETIRED_KEY_RETENTION_MS := 2 * 60 * 60 * 1000
  const MAX_TOKEN_SECONDS := 15 * 60
  const CREATE_ATTEMPTS := 3

  type Kid = nat

  /** `retiredAt` by key id; None is the active key. */
  type Keys = map<Kid, Option<Time>>

  function ActiveKeys(keys: Keys): set<Kid> {
    set k | k in keys && keys[k].None?
  }

  /** getJwks */
  function Published(keys: Keys, now: Time): set<Kid> {
    set k | k in keys && (keys[k].None? || keys[k].value > now - RETIRED_KEY_RETENTION_MS)
  }

  /** Inserting a new active key fails on the unique index when there is one already. */
  function Inserted(keys: Keys, kid: Kid): Option<Keys> {
    if ActiveKeys(keys) != {} then None else Some(keys[kid := None])
  }

  /** The transaction of rotateSigningKey; None is a roll-back. */
  function Rotated(keys: Keys, current: Option<Kid>, removed: Option<set<Kid>>, stamp: Time, kid: Kid): Option<Keys> {
    if removed.Some? then Inserted(keys - removed.value, kid)
    else if current.None? then Inserted(keys, kid)
    else if current.value !in keys then None
    else Inserted(keys[current.value := Some(stamp)], kid)
  }

  class KeyTable {
    var keys: Keys

    constructor ()
      ensures keys == map[]
    {
      keys := map[];
    }

    /** The insert, under the index signing_keys_single_active. */
    method Insert(kid: Kid) returns (ok: bool)
      modifies this
      ensures ok <==> ActiveKeys(old(keys)) == {}
      ensures keys == if ok then old(keys)[kid := None] else old(keys)
    {
      ok := ActiveKeys(keys) == {};
      if ok { keys := keys[kid := None]; }
    }

    method Rotate(current: Option<Kid>, removed: Option<set<Kid>>, stamp: Time, kid: Kid) returns (ok: bool)
      modifies this
      ensures ok <==> Rotated(old(keys), current, removed, stamp, kid).Some?
      ensures keys == if ok then Rotated(old(keys), current, removed, stamp, kid).value else old(keys)
    {
      var before := keys;
      if removed.Some? {
        keys := keys - removed.value;
      } else if current.Some? {
        if current.value !in keys { return false; }
        keys := keys[current.value := Some(stamp)];
      }
      ok := Insert(kid);
      if !ok { keys := before; }
    }
  }

  // ---------------------------------------------------------------- many at once

  /** A token signed at `at` expires at `expires`. */
  datatype Token = Token(kid: Kid, at: Time, expires: Time)

  /** What a request has read so far; a rotation reads the active key, generates the new one, and
      stamps the retirement as it submits its transaction. */
  datatype Flight =
    | Creating(attempt: nat, seconds: nat)
    | Rereading(attempt: nat, seconds: nat)
    | Holding(kid: Kid, seconds: nat)
    | Generating(current: Option<Kid>, compromised: bool)
    | Listing(current: Option<Kid>)
    | Rotating(current: Option<Kid>, removed: Option<set<Kid>>, stamp: Time)

  /** `tokens` are all signed so far (history). */
  datatype World = World(now: Time, next: Kid, keys: Keys, flights: map<nat, Flight>, tokens: set<Token>)

  datatype Step =
    | Tick(ms: nat)
    | Sign(id: nat, seconds: nat)
    | Rotate(id: nat, compromised: bool)
    | Advance(id: nat)

  function Active(keys: Keys): Option<Kid> {
    if k :| k in ActiveKeys(keys) && forall l :: l in ActiveKeys(keys) ==> k <= l then Some(k) else None
  }

  function Go(w: World, id: nat, f: Flight): World {
    w.(flights := w.flights[id := f])
  }

  /** A signature that stamps its token now; lifetimes are at most 15 minutes. */
  function SignWith(w: World, id: nat, kid: Kid, seconds: nat): World {
    w.(flights := w.flights - {id}, tokens := w.tokens + {Token(kid, w.now, (w.now / 1000 + seconds) * 1000)})
  }

  function Apply(w: World, step: Step): World {
    match step
    case Tick(ms) => w.(now := w.now + ms)
    case Sign(id, seconds) =>
      if id in w.flights || seconds > MAX_TOKEN_SECONDS then w
      else if Active(w.keys).Some? then Go(w, id, Holding(Active(w.keys).value, seconds)) else Go(w, id, Creating(0, seconds))
    case Rotate(id, compromised) =>
      if id in w.flights then w
      else Go(w, id, Generating(Active(w.keys), compromised))
    case Advance(id) =>
      if id !in w.flights then w
      else match w.flights[id]
        case Creating(attempt, seconds) =>
          (match Inserted(w.keys, w.next)
            case Some(keys) => Go(w.(keys := keys, next := w.next + 1), id, Holding(w.next, seconds))
            case None => Go(w, id, Rereading(attempt, seconds)))
        case Rereading(attempt, seconds) =>
          if Active(w.keys).Some? then Go(w, id, Holding(Active(w.keys).value, seconds))
          else if attempt + 1 < CREATE_ATTEMPTS then Go(w, id, Creating(attempt + 1, seconds))
          else w.(flights := w.flights - {id})
        case Holding(kid, seconds) => SignWith(w, id, kid, seconds)
        case Generating(current, compromised) =>
          Go(w, id, if compromised then Listing(current) else Rotating(current, None, w.now))
        case Listing(current) => Go(w, id, Rotating(current, Some(w.keys.Keys), w.now))
        case Rotating(current, removed, stamp) =>
          var done := w.(flights := w.flights - {id});
          (match Rotated(w.keys, current, removed, stamp, w.next)
            case Some(keys) => done.(keys := keys, next := w.next + 1)
            case None => done)
  }

  function At(w: World, run: seq<Step>, n: nat): World
    requires n <= |run|
  {
    if n == 0 then w else Apply(At(w, run, n - 1), run[n - 1])
  }

  function Init(now: Time): World {
    World(now, 0, map[], map[], {})
  }

  /** One key is active, or none has ever been created. */
  ghost predicate KeysOk(keys: Keys, next: Kid) {
    && (forall k :: k in keys ==> k < next)
    && |ActiveKeys(keys)| == if next == 0 then 0 else 1
  }

  ghost predicate Inv(w: World) {
    && KeysOk(w.keys, w.next)
    && TokensOk(w) && FlightsOk(w)
  }

  /** The lifetime asked of the token that a flight will sign. */
  function Lifetime(f: Flight): nat {
    match f
    case Creating(_, seconds) => seconds
    case Rereading(_, seconds) => seconds
    case Holding(_, seconds) => seconds
    case _ => 0
  }

  lemma InsertedOk(keys: Keys, kid: Kid)
    requires Inserted(keys, kid).Some? && KeysBelow(keys, kid)
    ensures KeysOk(Inserted(keys, kid).value, kid + 1)
  {
    assert ActiveKeys(keys[kid := None]) == {kid};
  }

  lemma RotatedOk(keys: Keys, current: Option<Kid>, removed: Option<set<Kid>>, stamp: Time, kid: Kid)
    requires Rotated(keys, current, removed, stamp, kid).Some? && KeysBelow(keys, kid)
    ensures KeysOk(Rotated(keys, current, removed, stamp, kid).value, kid + 1)
  {
    InsertedOk(if removed.Some? then keys - removed.value else if current.None? then keys else keys[current.value := Some(stamp)], kid);
  }

  lemma AdvanceKeepsKeys(w: World, id: nat)
    requires KeysOk(w.keys, w.next)
    ensures KeysOk(Apply(w, Advance(id)).keys, Apply(w, Advance(id)).next)
  {
    hide Inserted, Rotated, Active, KeysOk;
    if id in w.flights {
      var f := w.flights[id];
      assert KeysBelow(w.keys, w.next) by { BelowNext(w.keys, w.next); }
      if f.Creating? && Inserted(w.keys, w.next).Some? { InsertedOk(w.keys, w.next); }
      if f.Rotating? && Rotated(w.keys, f.current, f.removed, f.stamp, w.next).Some? { RotatedOk(w.keys, f.current, f.removed, f.stamp, w.next); }
    }
  }

  ghost predicate KeysBelow(keys: Keys, next: Kid) {
    forall k :: k in keys ==> k < next
  }

  lemma BelowNext(keys: Keys, next: Kid)
    requires KeysOk(keys, next)
    ensures KeysBelow(keys, next)
  {
  }

  ghost predicate TokensOk(w: World) {
    forall t :: t in w.tokens ==> TokenOk(t, w.now)
  }

  /** Signed in the past, for at most 15 minutes. */
  predicate TokenOk(t: Token, now: Time) {
    t.at <= now && t.expires <= t.at + 900000
  }

  ghost predicate FlightsOk(w: World) {
    forall id :: id in w.flights ==> Lifetime(w.flights[id]) <= MAX_TOKEN_SECONDS
  }

  lemma AdvanceKeepsTokens(w: World, id: nat)
    requires TokensOk(w) && FlightsOk(w)
    ensures TokensOk(Apply(w, Advance(id)))
  {
    if id in w.flights && w.flights[id].Holding? {
      var t := Token(w.flights[id].kid, w.now, (w.now / 1000 + w.flights[id].seconds) * 1000);
      assert TokenOk(t, w.now) by { assert Lifetime(w.flights[id]) <= MAX_TOKEN_SECONDS; }
    }
    hide Inserted, Rotated, Active, TokenOk;
  }

  lemma AdvanceKeepsFlights(w: World, id: nat)
    requires FlightsOk(w)
    ensures FlightsOk(Apply(w, Advance(id)))
  {
    hide Inserted, Rotated, Active;
  }

  lemma StepKeepsInv(w: World, step: Step)
    requires Inv(w)
    ensures Inv(Apply(w, step))
  {
    if step.Advance? {
      AdvanceKeepsKeys(w, step.id);
      AdvanceKeepsTokens(w, step.id);
      AdvanceKeepsFlights(w, step.id);
      hide Apply, KeysOk, TokensOk, FlightsOk;
    }
  }

  lemma {:induction false} RunKeepsInv(w: World, run: seq<Step>, n: nat)
    requires Inv(w) && n <= |run|
    ensures Inv(At(w, run, n))
  {
    hide Apply, Inv;
    if n > 0 {
      RunKeepsInv(w, run, n - 1);
      StepKeepsInv(At(w, run, n - 1), run[n - 1]);
    }
  }

  /** At most one signing key is ever active, and once a key was created one always is. */
  lemma OneActiveKey(now: Time, run: seq<Step>, n: nat)
    requires n <= |run|
    ensures var w := At(Init(now), run, n);
      |ActiveKeys(w.keys)| <= 1 && (w.next > 0 ==> |ActiveKeys(w.keys)| == 1)
  {
    RunKeepsInv(Init(now), run, n);
    assert ActiveKeys(map[]) == {};
    hide Apply, At;
  }

  // ---------------------------------------------------------------- publication

  /** The step commits a rotation for a compromise. */
  predicate Purges(w: World, step: Step) {
    step.Advance? && step.id in w.flights && w.flights[step.id].Rotating? && w.flights[step.id].removed.Some?
  }

  /** Without a purge a key stays in the table, and its retirement time never changes: a
      rotation that lost the race against another one rolls back. */
  lemma KeyStays(w: World, step: Step, k: Kid)
    requires Inv(w) && k in w.keys && !Purges(w, step)
    ensures k in Apply(w, step).keys
    ensures w.keys[k].Some? ==> Apply(w, step).keys[k] == w.keys[k]
  {
    if step.Advance? && step.id in w.flights && w.flights[step.id].Rotating? {
      var current, stamp := w.flights[step.id].current, w.flights[step.id].stamp;
      if current.Some? && current.value == k && w.keys[k].Some? {
        assert ActiveKeys(w.keys[k := Some(stamp)]) == ActiveKeys(w.keys);
      }
    }
  }

  lemma {:induction false} KeyRemains(w: World, run: seq<Step>, i: nat, n: nat, k: Kid)
    requires Inv(w) && i <= n <= |run| && k in At(w, run, i).keys
    requires forall m :: i <= m < n ==> !Purges(At(w, run, m), run[m])
    ensures k in At(w, run, n).keys
    ensures At(w, run, i).keys[k].Some? ==> At(w, run, n).keys[k] == At(w, run, i).keys[k]
  {
    hide Apply, Inv, Purges;
    if i < n {
      KeyRemains(w, run, i, n - 1, k);
      RunKeepsInv(w, run, n - 1);
      KeyStays(At(w, run, n - 1), run[n - 1], k);
    }
  }

  /** Without a compromised rotation since its signature, an unexpired token verifies against
      the published keys as long as it was signed no later than 6300 seconds after its key was
      marked retired: the key it names is in the table and published. */
  lemma TokensStayVerifiable(now: Time, run: seq<Step>, i: nat, n: nat, t: Token)
    requires i <= n <= |run| && t in At(Init(now), run, n).tokens && t.kid in At(Init(now), run, i).keys
    requires forall m :: i <= m < n ==> !Purges(At(Init(now), run, m), run[m])
    requires At(Init(now), run, n).now < t.expires
    ensures t.kid in At(Init(now), run, n).keys
    ensures var retiredAt := At(Init(now), run, n).keys[t.kid];
      retiredAt.None? || t.at <= retiredAt.value + 6300000 ==> t.kid in Published(At(Init(now), run, n).keys, At(Init(now), run, n).now)
  {
    KeyRemains(Init(now), run, i, n, t.kid);
    RunKeepsInv(Init(now), run, n);
    hide Apply, At;
  }

  /** And its key stays published for the token's whole life exactly when the token expires
      within two hours of the retirement. */
  lemma PublishedForLife(keys: Keys, t: Token)
    requires t.kid in keys && keys[t.kid].Some?
    ensures (forall at :: t.at <= at < t.expires ==> t.kid in Published(keys, at)) <==> t.expires <= t.at || t.expires <= keys[t.kid].value + 7200000
  {
    if t.at < t.expires && t.expires > keys[t.kid].value + 7200000 {
      assert t.kid !in Published(keys, t.expires - 1);
    }
  }

  // ---------------------------------------------------------------- a late signature

  /** Without any purge, a token that has not expired names a key no longer published. */
  ghost predicate Unverifiable(w: World, run: seq<Step>, t: Token) {
    var end := At(w, run, |run|);
    && (forall m :: 0 <= m < |run| ==> !Purges(At(w, run, m), run[m]))
    && t in end.tokens && t.kid in end.keys && end.now < t.expires && t.kid !in Published(end.keys, end.now)
  }

  lemma OnlyActive(k: Kid)
    ensures Active(map[k := None]) == Some(k)
  {
    assert ActiveKeys(map[k := None]) == {k};
  }

  lemma FirstSignature(w: World)
    requires w == Init(0)
    ensures Apply(Apply(w, Sign(0, 900)), Advance(0)) == World(0, 1, map[0 := None], map[0 := Holding(0, 900)], {})
  {
    assert ActiveKeys(map[]) == {};
  }

  lemma RotationAtOnce(w: World)
    requires w == World(0, 1, map[0 := None], map[0 := Holding(0, 900)], {})
    ensures Apply(w, Rotate(1, false)) == w.(flights := w.flights[1 := Generating(Some(0), false)])
    ensures Apply(Apply(w, Rotate(1, false)), Advance(1)) == w.(flights := w.flights[1 := Rotating(Some(0), None, 0)])
    ensures Apply(Apply(Apply(w, Rotate(1, false)), Advance(1)), Advance(1)) == w.(next := 2, keys := map[0 := Some(0), 1 := None])
  {
    OnlyActive(0);
    assert ActiveKeys(map[0 := Some(0)]) == {};
    assert w.flights[1 := Rotating(Some(0), None, 0)] - {1} == w.flights;
  }

  lemma SignsLate(w: World, late: nat, rest: nat)
    requires w == World(0, 2, map[0 := Some(0), 1 := None], map[0 := Holding(0, 900)], {})
    ensures Apply(Apply(Apply(w, Tick(late)), Advance(0)), Tick(rest))
      == World(late + rest, 2, w.keys, map[], {Token(0, late, (late / 1000 + 900) * 1000)})
  {
    assert w.flights - {0} == map[];
  }

  /** No rotation for a compromise is under way. */
  ghost predicate Uncompromised(w: World) {
    forall id :: id in w.flights ==> !PurgeAhead(w.flights[id])
  }

  predicate PurgeAhead(f: Flight) {
    f.Listing? || (f.Generating? && f.compromised) || (f.Rotating? && f.removed.Some?)
  }

  lemma {:induction false} NoCompromiseNoPurge(w: World, run: seq<Step>, n: nat)
    requires Uncompromised(w) && n <= |run| && forall m :: 0 <= m < |run| && run[m].Rotate? ==> !run[m].compromised
    ensures Uncompromised(At(w, run, n)) && (n < |run| ==> !Purges(At(w, run, n), run[n]))
  {
    hide Inserted, Rotated, Active;
    if n > 0 { NoCompromiseNoPurge(w, run, n - 1); }
  }

  /** From an empty table: a key retired at 0 signs, for a request that had read it before, at
      any `late` from 6301 seconds on, and there comes a time within the token's life when no
      verifier finds the key. */
  lemma LateSignatureIsReached(late: nat) returns (run: seq<Step>, t: Token)
    requires late >= 6301000
    ensures Unverifiable(Init(0), run, t) && t.at == late && At(Init(0), run, |run|).keys[t.kid] == Some(0)
  {
    hide Apply, Inserted, Rotated, Active;
    var w := Init(0);
    var rest := if late < 7200000 then 7200000 - late else 0;
    run := [Sign(0, 900), Advance(0), Rotate(1, false), Advance(1), Advance(1), Tick(late), Advance(0), Tick(rest)];
    t := Token(0, late, (late / 1000 + 900) * 1000);
    forall n | 0 < n <= |run| ensures At(w, run, n) == Apply(At(w, run, n - 1), run[n - 1]) {
    }
    FirstSignature(w);
    assert At(w, run, 2) == Apply(Apply(w, run[0]), run[1]);
    RotationAtOnce(At(w, run, 2));
    assert At(w, run, 5) == Apply(Apply(Apply(At(w, run, 2), run[2]), run[3]), run[4]);
    SignsLate(At(w, run, 5), late, rest);
    assert At(w, run, 8) == Apply(Apply(Apply(At(w, run, 5), run[5]), run[6]), run[7]);
    hide At;
    forall m | 0 <= m < |run| ensures !Purges(At(w, run, m), run[m]) {
      NoCompromiseNoPurge(w, run, m);
    }
  }

  // ---------------------------------------------------------------- what a rotation does

  /** The next step of request `id` after step `i` is taken at `k`. */
  ghost predicate NextMove(run: seq<Step>, id: nat, i: nat, k: nat) {
    i < k < |run| && run[k] == Advance(id) && forall m :: i < m < k ==> run[m] != Advance(id)
  }

  /** Until its next step, what a request has read stays as it is. */
  lemma {:induction false} FlightWaits(w: World, run: seq<Step>, id: nat, i: nat, k: nat)
    requires i < k <= |run| && id in At(w, run, i + 1).flights
    requires forall m :: i < m < k ==> run[m] != Advance(id)
    ensures id in At(w, run, k).flights && At(w, run, k).flights[id] == At(w, run, i + 1).flights[id]
  {
    if k > i + 1 {
      FlightWaits(w, run, id, i, k - 1);
      OthersWait(At(w, run, k - 1), run[k - 1], id);
    }
    hide Apply;
  }

  lemma OthersWait(w: World, step: Step, id: nat)
    requires id in w.flights && step != Advance(id)
    ensures id in Apply(w, step).flights && Apply(w, step).flights[id] == w.flights[id]
  {
  }

  /** The table `after` is `before` without the keys `removed`, with `retired` retired at `stamp` and
      with one new active key. */
  ghost predicate Replaced(before: Keys, after: Keys, removed: set<Kid>, retired: Option<Kid>, stamp: Time, fresh': Kid) {
    && after.Keys == (before.Keys - removed) + {fresh'} && after[fresh'].None?
    && forall k :: k in before && k !in removed && k != fresh' ==> after[k] == if retired == Some(k) then Some(stamp) else before[k]
  }

  /** Some key but those is active. */
  predicate AnotherActive(keys: Keys, others: set<Kid>) {
    exists k :: k in keys && keys[k].None? && k !in others
  }

  lemma NoOther(keys: Keys, others: set<Kid>)
    ensures AnotherActive(keys, others) <==> ActiveKeys(keys - others) != {}
  {
    if AnotherActive(keys, others) {
      var k :| k in keys && keys[k].None? && k !in others;
      assert k in ActiveKeys(keys - others);
    }
    if ActiveKeys(keys - others) != {} {
      var k :| k in ActiveKeys(keys - others);
      assert k in keys && keys[k].None? && k !in others;
    }
  }

  /** A rotation retires the key that was active when it began, at the moment it had the new one
      ready, and activates that: unless another key has become active, or the old one is gone, by
      the time it commits. Then nothing changes. */
  lemma RotationRetires(now: Time, run: seq<Step>, id: nat, r: nat, g: nat, k: nat)
    requires run != [] && NextMove(run, id, r, g) && NextMove(run, id, g, k)
    requires run[r] == Rotate(id, false) && id !in At(Init(now), run, r).flights
    ensures var w := Init(now);
      var old', before, after := Active(At(w, run, r).keys), At(w, run, k).keys, At(w, run, k + 1).keys;
      var retired := if old'.Some? then {old'.value} else {};
      if AnotherActive(before, retired) || !(retired <= before.Keys) then after == before
      else Replaced(before, after, {}, old', At(w, run, g).now, At(w, run, k).next)
  {
    var w := Init(now);
    FlightWaits(w, run, id, r, g);
    FlightWaits(w, run, id, g, k);
    RunKeepsInv(w, run, k);
    var s := At(w, run, k);
    hide At, Init;
    RetiringCommits(s, id, Active(At(w, run, r).keys), At(w, run, g).now);
  }

  lemma RetiringCommits(s: World, id: nat, current: Option<Kid>, stamp: Time)
    requires Inv(s) && id in s.flights && s.flights[id] == Rotating(current, None, stamp)
    ensures var retired := if current.Some? then {current.value} else {};
      var after := Apply(s, Advance(id)).keys;
      if AnotherActive(s.keys, retired) || !(retired <= s.keys.Keys) then after == s.keys
      else Replaced(s.keys, after, {}, current, stamp, s.next)
  {
    var retired := if current.Some? then {current.value} else {};
    NoOther(s.keys, retired);
    assert s.keys - {} == s.keys;
    if current.Some? && current.value in s.keys {
      assert ActiveKeys(s.keys[current.value := Some(stamp)]) == ActiveKeys(s.keys - retired);
    }
  }

  /** A rotation for a compromise removes every key there was when it listed them, retired ones too,
      and activates a new one: unless a key made since is active when it commits. Then nothing
      changes, and the keys stay published. */
  lemma CompromiseRemovesAll(now: Time, run: seq<Step>, id: nat, r: nat, g: nat, l: nat, k: nat)
    requires run != [] && NextMove(run, id, r, g) && NextMove(run, id, g, l) && NextMove(run, id, l, k)
    requires run[r] == Rotate(id, true) && id !in At(Init(now), run, r).flights
    ensures var w := Init(now);
      var listed, before, after := At(w, run, l).keys.Keys, At(w, run, k).keys, At(w, run, k + 1).keys;
      if AnotherActive(before, listed) then after == before
      else Replaced(before, after, listed, None, At(w, run, k).now, At(w, run, k).next)
  {
    var w := Init(now);
    FlightWaits(w, run, id, r, g);
    FlightWaits(w, run, id, g, l);
    FlightWaits(w, run, id, l, k);
    RunKeepsInv(w, run, k);
    var s := At(w, run, k);
    NoOther(s.keys, At(w, run, l).keys.Keys);
    hide At, Init;
  }

  // ---------------------------------------------------------------- what is signed

  predicate Signing(f: Flight) {
    f.Creating? || f.Rereading? || f.Holding?
  }

  /** The step gave request `id` the phase `f`. */
  ghost predicate Enters(w: World, step: Step, id: nat, f: Flight) {
    id in Apply(w, step).flights && Apply(w, step).flights[id] == f && (step == Advance(id) || id !in w.flights)
  }

  lemma {:induction false} Origin(w: World, run: seq<Step>, n: nat, id: nat) returns (k: nat)
    requires w.flights == map[] && n <= |run| && id in At(w, run, n).flights
    ensures k < n && Enters(At(w, run, k), run[k], id, At(w, run, n).flights[id])
  {
    hide Apply;
    assert n > 0;
    if Enters(At(w, run, n - 1), run[n - 1], id, At(w, run, n).flights[id]) {
      k := n - 1;
    } else {
      OthersWait(At(w, run, n - 1), run[n - 1], id);
      k := Origin(w, run, n - 1, id);
    }
  }

  /** A request to sign stays one, for the lifetime it asked for. */
  lemma SigningGoesOn(w: World, step: Step, id: nat, f: Flight)
    requires Enters(w, step, id, f) && Signing(f)
    ensures step == Sign(id, Lifetime(f)) || (step == Advance(id) && id in w.flights && Signing(w.flights[id]) && Lifetime(w.flights[id]) == Lifetime(f))
    ensures f.Holding? ==> f.kid in ActiveKeys(w.keys) || f.kid in ActiveKeys(Apply(w, step).keys)
  {
  }

  /** Where a signing request began. */
  lemma {:induction false} SigningBegan(w: World, run: seq<Step>, n: nat, id: nat) returns (i: nat)
    requires w.flights == map[] && n <= |run| && id in At(w, run, n).flights && Signing(At(w, run, n).flights[id])
    ensures i < n && run[i] == Sign(id, Lifetime(At(w, run, n).flights[id]))
  {
    var k := Origin(w, run, n, id);
    hide Apply;
    SigningGoesOn(At(w, run, k), run[k], id, At(w, run, n).flights[id]);
    if run[k] == Advance(id) { i := SigningBegan(w, run, k, id); } else { i := k; }
  }

  lemma TokenStep(w: World, step: Step, t: Token)
    requires t in Apply(w, step).tokens && t !in w.tokens
    ensures step.Advance? && step.id in w.flights && w.flights[step.id].Holding? && t.kid == w.flights[step.id].kid && t.at == w.now
    ensures t.expires == (w.now / 1000 + w.flights[step.id].seconds) * 1000
  {
  }

  /** Every token was asked for at some step `i`, for a lifetime of at most 15 minutes from the second
      it was signed at `k`, and its key was active at some `m` in between. */
  lemma {:induction false} EveryTokenWasAsked(now: Time, run: seq<Step>, n: nat, t: Token) returns (i: nat, m: nat, k: nat)
    requires n <= |run| && t in At(Init(now), run, n).tokens
    ensures i <= m <= k < n && run[i].Sign? && run[k] == Advance(run[i].id)
    ensures t.at == At(Init(now), run, k).now && t.expires == (t.at / 1000 + run[i].seconds) * 1000
    ensures t.kid in ActiveKeys(At(Init(now), run, m).keys)
  {
    var w := Init(now);
    assert n > 0;
    assert At(w, run, n) == Apply(At(w, run, n - 1), run[n - 1]);
    hide Apply;
    if t in At(w, run, n - 1).tokens {
      i, m, k := EveryTokenWasAsked(now, run, n - 1, t);
    } else {
      k := n - 1;
      TokenStep(At(w, run, k), run[k], t);
      var id := run[k].id;
      var f := At(w, run, k).flights[id];
      var h := Origin(w, run, k, id);
      SigningGoesOn(At(w, run, h), run[h], id, f);
      m := if f.kid in ActiveKeys(At(w, run, h).keys) then h else h + 1;
      if run[h] == Advance(id) { i := SigningBegan(w, run, h, id); } else { i := h; }
    }
  }

  /** What a request to sign tries when it finds no active key: it makes one, reads again when
      another request was faster, and gives up when that key is gone too, the third time. */
  lemma WhenSigningGivesUp(w: World, id: nat)
    requires Inv(w) && id in w.flights && Signing(w.flights[id])
    ensures var f, w' := w.flights[id], Apply(w, Advance(id));
      && (f.Creating? ==> id in w'.flights && (w'.flights[id].Holding? <==> ActiveKeys(w.keys) == {}))
      && (f.Rereading? ==> (id !in w'.flights <==> ActiveKeys(w.keys) == {} && f.attempt >= 2))
      && (f.Rereading? && id in w'.flights ==> (w'.flights[id].Holding? <==> ActiveKeys(w.keys) != {}))
      && (f.Rereading? && ActiveKeys(w.keys) == {} && f.attempt < 2 ==> id in w'.flights && w'.flights[id] == Creating(f.attempt + 1, f.seconds))
      && (f.Creating? && w'.flights[id].Rereading? ==> w'.flights[id].attempt == f.attempt)
      && (f.Holding? ==> id !in w'.flights && Token(f.kid, w.now, (w.now / 1000 + f.seconds) * 1000) in w'.tokens)
  {
    ActiveIsFound(w.keys);
    hide Active;
  }

  /** It begins with the active key, if there is one, and else with the first attempt to make one. */
  lemma WhatASignatureReads(w: World, id: nat, seconds: nat)
    requires Inv(w) && id !in w.flights
    ensures var w' := Apply(w, Sign(id, seconds));
      if seconds > 900 then w' == w
      else
        && w' == w.(flights := w.flights[id := w'.flights[id]])
        && if ActiveKeys(w.keys) == {} then w'.flights[id] == Creating(0, seconds)
           else w'.flights[id].Holding? && w'.flights[id].kid in ActiveKeys(w.keys) && w'.flights[id].seconds == seconds
  {
    ActiveIsFound(w.keys);
  }

  lemma ActiveIsFound(keys: Keys)
    requires |ActiveKeys(keys)| <= 1
    ensures Active(keys).Some? <==> ActiveKeys(keys) != {}
  {
    if ActiveKeys(keys) != {} {
      var k :| k in ActiveKeys(keys);
      assert |ActiveKeys(keys) - {k}| == |ActiveKeys(keys)| - 1;
      assert forall l :: l in ActiveKeys(keys) ==> l in ActiveKeys(keys) - {k} || l == k;
    }
  }
}
