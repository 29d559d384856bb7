/** The login throttle (local-accounts.ts). Counting and recording an attempt is one
    transaction, under the locks of the address and the key; whatever is to be guessed is
    compared only afterwards. */
module LoginThrottle {
  import opened Basics
  import opened Fingerprint

  const FAILURE_WINDOW_MS := 15 * 60 * 1000
  const MAX_IP_FAILURES := 5
  datatype Kind = Login | Device | PasswordChange | Setup

  /** login 10 per username, a device cookie and a password change 5. */
  function KeyLimit(kind: Kind): Option<nat> {
    match kind
    case Login => Some(10)
    case Device => Some(5)
    case PasswordChange => Some(5)
    case Setup => None
  }

  predicate WithinLimit(count: nat, limit: Option<nat>) {
    limit.Some? ==> count <= limit.value
  }

  predicate IpLimited(kind: Kind) {
    kind != PasswordChange
  }

  /** `epoch` counts the successes of the row's kind and key when it was made (history). */
  datatype Row = Row(id: nat, kind: Kind, ip: string, key: Option<string>, failedAt: Time, epoch: nat)

  /** An attempt between reading the clock and its transaction. */
  datatype Attempt = Attempt(kind: Kind, ip: string, key: Option<string>, began: Time)

  datatype KindKey = KindKey(kind: Kind, key: string)

  /** An attempt that was let through to the password check. */
  datatype Admission = Admission(row: Row, decidedAt: Time)

  /** `delay` is the longest an attempt can take from reading the clock to its decision: its
      transaction waits at most 15 s for a connection and runs at most 15 s. `admitted` and
      `epochs` are history. */
  datatype World = World(delay: nat, now: Time, next: nat, rows: set<Row>, attempts: map<nat, Attempt>, admitted: set<Admission>, epochs: map<KindKey, nat>)

  datatype Step =
    | Tick(ms: nat)
    | Begin(id: nat, kind: Kind, ip: string, key: Option<string>)
    | Decide(id: nat, failedAt: Time)
    | Succeed(row: Row)
    | Prune(cutoff: Time)

  function RowsOfIp(rows: set<Row>, ip: string, since: Time): set<Row> {
    set r | r in rows && IpLimited(r.kind) && r.ip == ip && r.failedAt >= since
  }

  function RowsOfKey(rows: set<Row>, kind: Kind, key: string, since: Time): set<Row> {
    set r | r in rows && r.kind == kind && r.key == Some(key) && r.failedAt >= since
  }

  function Epoch(w: World, kind: Kind, key: string): nat {
    if KindKey(kind, key) in w.epochs then w.epochs[KindKey(kind, key)] else 0
  }

  /** The count in reserveAttempt; setup has no key, a password change no address limit. */
  predicate Admits(rows: set<Row>, a: Attempt) {
    var since := a.began - FAILURE_WINDOW_MS;
    && (IpLimited(a.kind) ==> |RowsOfIp(rows, a.ip, since)| < MAX_IP_FAILURES)
    && (a.key.Some? && KeyLimit(a.kind).Some? ==> |RowsOfKey(rows, a.kind, a.key.value, since)| < KeyLimit(a.kind).value)
  }

  /** A row is stamped at some moment of its transaction, and a transaction that takes longer
      than its limits fails. */
  predicate Timely(w: World, a: Attempt, failedAt: Time) {
    a.began <= failedAt <= w.now <= a.began + w.delay
  }

  function Apply(w: World, step: Step): World {
    match step
    case Tick(ms) => w.(now := w.now + ms)
    case Begin(id, kind, ip, key) => w.(attempts := w.attempts[id := Attempt(kind, ip, key, w.now)])
    case Decide(id, failedAt) =>
      if id !in w.attempts then w
      else
        var a := w.attempts[id];
        var ended := w.(attempts := w.attempts - {id});
        if !Timely(w, a, failedAt) || !Admits(w.rows, a) then ended
        else
          var row := NewRow(a, w.next, failedAt, if a.key.Some? then Epoch(w, a.kind, a.key.value) else 0);
          ended.(next := w.next + 1, rows := w.rows + {row}, admitted := w.admitted + {Admission(row, w.now)})
    case Succeed(row) =>
      var left := w.(rows := WithoutSlot(w.rows, row));
      if row.key.None? then left
      else left.(epochs := w.epochs[KindKey(row.kind, row.key.value) := Epoch(w, row.kind, row.key.value) + 1])
    case Prune(cutoff) =>
      if cutoff > w.now - FAILURE_WINDOW_MS then w else w.(rows := set r | r in w.rows && !(r.failedAt < cutoff))
  }

  // ---------------------------------------------------------------- the table

  function NewRow(a: Attempt, id: nat, failedAt: Time, epoch: nat): Row {
    Row(id, a.kind, a.ip, a.key, failedAt, epoch)
  }

  function WithoutSlot(rows: set<Row>, slot: Row): set<Row> {
    if slot.key.None? then rows - {slot} else set r | r in rows && r != slot && !(r.kind == slot.kind && r.key == slot.key)
  }

  class FailureTable {
    var rows: set<Row>

    constructor ()
      ensures rows == {}
    {
      rows := {};
    }

    /** The transaction of reserveAttempt, under its locks. */
    method Reserve(a: Attempt, id: nat, failedAt: Time, epoch: nat) returns (slot: Option<Row>)
      modifies this
      ensures slot.Some? <==> Admits(old(rows), a)
      ensures slot.Some? ==> slot.value == NewRow(a, id, failedAt, epoch) && rows == old(rows) + {slot.value}
      ensures slot.None? ==> rows == old(rows)
    {
      var since := a.began - FAILURE_WINDOW_MS;
      if a.kind != PasswordChange {
        var byIp := |RowsOfIp(rows, a.ip, since)|;
        if byIp >= MAX_IP_FAILURES { return None; }
      }
      var maxPerKey := KeyLimit(a.kind);
      if a.key.Some? && maxPerKey.Some? {
        var byKey := |RowsOfKey(rows, a.kind, a.key.value, since)|;
        if byKey >= maxPerKey.value { return None; }
      }
      var row := Row(id, a.kind, a.ip, a.key, failedAt, epoch);
      rows := rows + {row};
      slot := Some(row);
    }

    method EndAttempt(slot: Row, success: bool)
      modifies this
      ensures rows == if success then WithoutSlot(old(rows), slot) else old(rows)
    {
      if !success { return; }
      if slot.key.None? {
        rows := rows - {slot};
      } else {
        rows := set r | r in rows && r != slot && !(r.kind == slot.kind && r.key == slot.key);
      }
    }
  }

  function At(w: World, run: seq<Step>, n: nat): World
    requires n <= |run|
  {
    if n == 0 then w else Apply(At(w, run, n - 1), run[n - 1])
  }

  function Init(now: Time, delay: nat): World {
    World(delay, now, 0, {}, map[], {}, map[])
  }

  // ---------------------------------------------------------------- rows in the window

  predicate IpOk(rows: set<Row>, now: Time, ip: string) {
    |RowsOfIp(rows, ip, now - FAILURE_WINDOW_MS)| <= MAX_IP_FAILURES
  }

  predicate KeyOk(rows: set<Row>, now: Time, kind: Kind, key: string) {
    WithinLimit(|RowsOfKey(rows, kind, key, now - FAILURE_WINDOW_MS)|, KeyLimit(kind))
  }

  ghost predicate RowsOk(w: World) {
    && (forall r :: r in w.rows ==> r.id < w.next && r.failedAt <= w.now)
    && (forall ip :: IpOk(w.rows, w.now, ip))
    && (forall kind, key :: KeyOk(w.rows, w.now, kind, key))
  }

  lemma {:induction false} FewerRows(w: World, rows: set<Row>, now: Time)
    requires RowsOk(w) && rows <= w.rows && now >= w.now
    ensures RowsOk(w.(rows := rows, now := now))
  {
    forall ip ensures IpOk(rows, now, ip) {
      assert IpOk(w.rows, w.now, ip);
      SubsetSize(RowsOfIp(rows, ip, now - FAILURE_WINDOW_MS), RowsOfIp(w.rows, ip, w.now - FAILURE_WINDOW_MS));
    }
    forall kind, key ensures KeyOk(rows, now, kind, key) {
      assert KeyOk(w.rows, w.now, kind, key);
      SubsetSize(RowsOfKey(rows, kind, key, now - FAILURE_WINDOW_MS), RowsOfKey(w.rows, kind, key, w.now - FAILURE_WINDOW_MS));
    }
  }

  /** The count looked back from the start of the attempt, so it saw every row of the window
      that ends when the attempt is decided. */
  lemma {:induction false} AdmittedRowFits(w: World, a: Attempt, row: Row)
    requires RowsOk(w) && a.began <= w.now && Admits(w.rows, a) && row.id == w.next && row.failedAt <= w.now
    requires row.kind == a.kind && row.ip == a.ip && row.key == a.key
    ensures RowsOk(w.(rows := w.rows + {row}, next := w.next + 1))
  {
    var since := w.now - FAILURE_WINDOW_MS;
    forall ip ensures IpOk(w.rows + {row}, w.now, ip) {
      assert IpOk(w.rows, w.now, ip);
      if IpLimited(a.kind) && ip == a.ip {
        SubsetSize(RowsOfIp(w.rows, ip, since), RowsOfIp(w.rows, ip, a.began - FAILURE_WINDOW_MS));
      }
      SubsetSize(RowsOfIp(w.rows + {row}, ip, since), RowsOfIp(w.rows, ip, since) + if IpLimited(a.kind) && ip == a.ip then {row} else {});
    }
    forall kind, key ensures KeyOk(w.rows + {row}, w.now, kind, key) {
      assert KeyOk(w.rows, w.now, kind, key);
      if kind == a.kind && Some(key) == a.key {
        SubsetSize(RowsOfKey(w.rows, kind, key, since), RowsOfKey(w.rows, kind, key, a.began - FAILURE_WINDOW_MS));
      }
      SubsetSize(RowsOfKey(w.rows + {row}, kind, key, since), RowsOfKey(w.rows, kind, key, since) + if kind == a.kind && Some(key) == a.key then {row} else {});
    }
  }

  // ---------------------------------------------------------------- admissions

  /** Admissions of one key since its last success, decided in `from .. to`. */
  function AdmittedIn(admitted: set<Admission>, kind: Kind, key: string, epoch: nat, from: Time, to: Time): set<Admission> {
    set a | a in admitted && a.row.kind == kind && a.row.key == Some(key) && a.row.epoch == epoch && from <= a.decidedAt <= to
  }

  /** Until its window has passed or its key succeeds, an admission's row stays. */
  ghost predicate HistoryOk(w: World) {
    forall a :: a in w.admitted ==> AdmissionOk(w, a)
  }

  predicate AdmissionOk(w: World, a: Admission) {
    && a.row.id < w.next && a.decidedAt <= w.now && a.row.failedAt <= a.decidedAt <= a.row.failedAt + w.delay
    && (a.row.key.Some? ==> a.row.epoch <= Epoch(w, a.row.kind, a.row.key.value))
    && (a.row.key.Some? && a.row.epoch == Epoch(w, a.row.kind, a.row.key.value) && a.row.failedAt >= w.now - FAILURE_WINDOW_MS ==> a.row in w.rows)
  }

  ghost predicate UniqueRows(w: World) {
    forall a, b :: a in w.admitted && b in w.admitted && a.row == b.row ==> a == b
  }

  /** No stretch of a window's length, less the longest delay of a transaction, admits more
      attempts on a key than its limit. */
  ghost predicate Throttled(w: World) {
    forall kind, key, epoch, from :: StretchOk(w.admitted, w.delay, kind, key, epoch, from)
  }

  predicate StretchOk(admitted: set<Admission>, delay: nat, kind: Kind, key: string, epoch: nat, from: Time) {
    WithinLimit(|AdmittedIn(admitted, kind, key, epoch, from, from + FAILURE_WINDOW_MS - delay)|, KeyLimit(kind))
  }

  ghost predicate Inv(w: World) {
    && RowsOk(w) && HistoryOk(w) && UniqueRows(w) && Throttled(w)
    && (forall id :: id in w.attempts ==> w.attempts[id].began <= w.now)
  }

  lemma {:induction false} SameSize(a: set<Admission>, rows: set<Row>)
    requires forall x :: x in a ==> x.row in rows
    requires forall x, y :: x in a && y in a && x.row == y.row ==> x == y
    ensures |a| <= |rows|
    decreases a
  {
    if a != {} {
      var x :| x in a;
      SameSize(a - {x}, rows - {x.row});
    }
  }

  /** The earlier admissions of the stretch are all counted when the next one is decided. */
  lemma {:induction false} StretchIsCounted(w: World, a: Attempt, from: Time)
    requires Inv(w) && a.key.Some? && a.began <= w.now && w.now <= from + FAILURE_WINDOW_MS - w.delay
    ensures var epoch := Epoch(w, a.kind, a.key.value);
      |AdmittedIn(w.admitted, a.kind, a.key.value, epoch, from, from + FAILURE_WINDOW_MS - w.delay)|
        <= |RowsOfKey(w.rows, a.kind, a.key.value, a.began - FAILURE_WINDOW_MS)|
  {
    var epoch := Epoch(w, a.kind, a.key.value);
    var earlier := AdmittedIn(w.admitted, a.kind, a.key.value, epoch, from, from + FAILURE_WINDOW_MS - w.delay);
    forall x | x in earlier ensures x.row in RowsOfKey(w.rows, a.kind, a.key.value, a.began - FAILURE_WINDOW_MS) {
      assert AdmissionOk(w, x);
    }
    SameSize(earlier, RowsOfKey(w.rows, a.kind, a.key.value, a.began - FAILURE_WINDOW_MS));
  }

  lemma {:induction false} DecisionThrottles(w: World, a: Attempt, row: Row, kind: Kind, key: string, epoch: nat, from: Time)
    requires Inv(w) && a.began <= w.now && Admits(w.rows, a) && row.id == w.next
    requires row.kind == a.kind && row.key == a.key && (a.key.Some? ==> row.epoch == Epoch(w, a.kind, a.key.value))
    ensures StretchOk(w.admitted + {Admission(row, w.now)}, w.delay, kind, key, epoch, from)
  {
    var to := from + FAILURE_WINDOW_MS - w.delay;
    var before := AdmittedIn(w.admitted, kind, key, epoch, from, to);
    var after := AdmittedIn(w.admitted + {Admission(row, w.now)}, kind, key, epoch, from, to);
    assert StretchOk(w.admitted, w.delay, kind, key, epoch, from);
    if Admission(row, w.now) in after {
      StretchIsCounted(w, a, from);
      SubsetSize(after, before + {Admission(row, w.now)});
    } else {
      SubsetSize(after, before);
    }
  }

  lemma {:induction false} DecideKeeps(w: World, id: nat, failedAt: Time)
    requires Inv(w)
    ensures Inv(Apply(w, Decide(id, failedAt)))
  {
    if id in w.attempts {
      var a := w.attempts[id];
      if Timely(w, a, failedAt) && Admits(w.rows, a) {
        var row := NewRow(a, w.next, failedAt, if a.key.Some? then Epoch(w, a.kind, a.key.value) else 0);
        var w' := Apply(w, Decide(id, failedAt));
        AdmittedRowFits(w, a, row);
        forall kind, key, epoch, from ensures StretchOk(w'.admitted, w.delay, kind, key, epoch, from) {
          DecisionThrottles(w, a, row, kind, key, epoch, from);
        }
        forall x | x in w'.admitted ensures AdmissionOk(w', x) {
          if x in w.admitted { assert AdmissionOk(w, x); }
        }
        hide Admits, Throttled, RowsOk;
        assert forall x :: x in w.admitted ==> AdmissionOk(w, x) && x.row != row;
      }
    }
    hide RowsOk, Throttled, HistoryOk;
  }

  lemma {:induction false} RemovalKeeps(w: World, step: Step)
    requires Inv(w) && !step.Decide?
    ensures Inv(Apply(w, step))
  {
    var w' := Apply(w, step);
    FewerRows(w, w'.rows, w'.now);
    hide RowsOk, Throttled;
    forall x | x in w'.admitted ensures AdmissionOk(w', x) {
      assert AdmissionOk(w, x);
    }
  }

  lemma {:induction false} RunKeepsInv(w: World, run: seq<Step>, n: nat)
    requires Inv(w) && n <= |run|
    ensures Inv(At(w, run, n))
  {
    hide Apply, Inv;
    if n > 0 {
      RunKeepsInv(w, run, n - 1);
      if run[n - 1].Decide? {
        DecideKeeps(At(w, run, n - 1), run[n - 1].id, run[n - 1].failedAt);
      } else {
        RemovalKeeps(At(w, run, n - 1), run[n - 1]);
      }
    }
  }

  lemma {:induction false} EmptyInv(now: Time, delay: nat)
    ensures Inv(Init(now, delay))
  {
    var w := Init(now, delay);
    forall ip ensures IpOk(w.rows, w.now, ip) {
      assert RowsOfIp(w.rows, ip, w.now - FAILURE_WINDOW_MS) == {};
    }
    forall kind, key ensures KeyOk(w.rows, w.now, kind, key) {
      assert RowsOfKey(w.rows, kind, key, w.now - FAILURE_WINDOW_MS) == {};
    }
    forall kind, key, epoch, from ensures StretchOk(w.admitted, w.delay, kind, key, epoch, from) {
      assert AdmittedIn(w.admitted, kind, key, epoch, from, from + FAILURE_WINDOW_MS - w.delay) == {};
    }
  }

  /** Whatever attempts overlap, and whenever rows are pruned: of one key, any stretch of 15
      minutes less that delay and without a success admits at most its limit, and never do
      more than five rows of one address lie within the last 15 minutes. */
  lemma {:induction false} AttemptsAreThrottled(now: Time, delay: nat, run: seq<Step>, n: nat, kind: Kind, key: string, epoch: nat, from: Time, ip: string)
    requires n <= |run|
    ensures var w := At(Init(now, delay), run, n);
      && WithinLimit(|AdmittedIn(w.admitted, kind, key, epoch, from, from + 900000 - delay)|, KeyLimit(kind))
      && WithinLimit(|RowsOfKey(w.rows, kind, key, w.now - 900000)|, KeyLimit(kind))
      && |RowsOfIp(w.rows, ip, w.now - 900000)| <= 5
  {
    EmptyInv(now, delay);
    RunKeepsInv(Init(now, delay), run, n);
    SameDelay(Init(now, delay), run, n);
    var w := At(Init(now, delay), run, n);
    assert StretchOk(w.admitted, w.delay, kind, key, epoch, from) && IpOk(w.rows, w.now, ip) && KeyOk(w.rows, w.now, kind, key);
    hide Apply, At;
  }

  // ---------------------------------------------------------------- who is admitted

  /** The rows that weigh on an attempt: those of its address, of whatever kind but password
      changes, and those of its own kind and key, for 15 minutes before it began. */
  function FromAddress(rows: set<Row>, a: Attempt): set<Row> {
    set r | r in rows && r.kind != PasswordChange && r.ip == a.ip && r.failedAt >= a.began - 900000
  }

  function FromKey(rows: set<Row>, a: Attempt): set<Row> {
    set r | r in rows && r.kind == a.kind && r.key == a.key && r.failedAt >= a.began - 900000
  }

  /** An attempt decided in time goes to its password check exactly when its address has fewer than
      five rows (a password change needs none), and its key fewer than ten, or five for a device
      or a password change. Then it leaves a row of its own. */
  lemma {:induction false} WhenAnAttemptIsAdmitted(w: World, id: nat, failedAt: Time)
    requires id in w.attempts && w.attempts[id].began <= failedAt <= w.now <= w.attempts[id].began + w.delay
    requires w.attempts[id].kind == Setup ==> w.attempts[id].key.None?
    ensures var a, w' := w.attempts[id], Apply(w, Decide(id, failedAt));
      var admitted := (a.kind == PasswordChange || |FromAddress(w.rows, a)| < 5)
                      && (a.key.Some? ==> |FromKey(w.rows, a)| < if a.kind == Login then 10 else 5);
      && (!admitted ==> w'.rows == w.rows && w'.admitted == w.admitted)
      && (admitted ==> exists row :: LeavesRow(w, a, failedAt, row, w'))
  {
    var a := w.attempts[id];
    assert FromAddress(w.rows, a) == RowsOfIp(w.rows, a.ip, a.began - FAILURE_WINDOW_MS);
    if a.key.Some? {
      assert FromKey(w.rows, a) == RowsOfKey(w.rows, a.kind, a.key.value, a.began - FAILURE_WINDOW_MS);
    }
    if Admits(w.rows, a) {
      var row := NewRow(a, w.next, failedAt, if a.key.Some? then Epoch(w, a.kind, a.key.value) else 0);
      assert LeavesRow(w, a, failedAt, row, Apply(w, Decide(id, failedAt)));
    }
    hide Apply, LeavesRow;
  }

  predicate LeavesRow(w: World, a: Attempt, failedAt: Time, row: Row, w': World) {
    && row.kind == a.kind && row.key == a.key && row.ip == a.ip && row.failedAt == failedAt
    && w'.rows == w.rows + {row} && w'.admitted == w.admitted + {Admission(row, w.now)}
  }

  /** A success takes its own row and, where it has a key, every row of its kind and key; all
      others stay. */
  lemma {:induction false} SuccessForgives(w: World, slot: Row, r: Row)
    ensures r in Apply(w, Succeed(slot)).rows <==>
      r in w.rows && r != slot && (slot.key.Some? && r.kind == slot.kind ==> r.key != slot.key)
  {
  }

  /** Pruning takes exactly the rows before its cutoff. */
  lemma {:induction false} PruningKeepsTheWindow(w: World, cutoff: Time, r: Row)
    requires cutoff <= w.now - 900000
    ensures r in Apply(w, Prune(cutoff)).rows <==> r in w.rows && r.failedAt >= cutoff
  {
  }

  /** Every row is that of an admitted attempt whose key had no success since. */
  ghost predicate RowsAreOpen(w: World) {
    forall r :: r in w.rows ==> (exists a :: a in w.admitted && a.row == r) && (r.key.Some? ==> r.epoch == Epoch(w, r.kind, r.key.value))
  }

  lemma {:induction false} StepKeepsOpen(w: World, step: Step)
    requires RowsAreOpen(w)
    ensures RowsAreOpen(Apply(w, step))
  {
    hide Admits, Timely;
    var w' := Apply(w, step);
    forall r | r in w'.rows ensures exists a :: a in w'.admitted && a.row == r {
      if r in w.rows {
        var a :| a in w.admitted && a.row == r;
        assert a in w'.admitted;
      } else {
        assert Admission(r, w.now) in w'.admitted;
      }
    }
  }

  lemma {:induction false} RunKeepsOpen(w: World, run: seq<Step>, n: nat)
    requires RowsAreOpen(w) && n <= |run|
    ensures RowsAreOpen(At(w, run, n))
  {
    hide Apply, RowsAreOpen;
    if n > 0 {
      RunKeepsOpen(w, run, n - 1);
      StepKeepsOpen(At(w, run, n - 1), run[n - 1]);
    }
  }

  /** So what weighs on a key in the last 15 minutes are exactly the attempts admitted since its
      last success. */
  lemma {:induction false} OpenAttemptsCount(now: Time, delay: nat, run: seq<Step>, n: nat, row: Row)
    requires n <= |run| && row.key.Some? && row.failedAt >= At(Init(now, delay), run, n).now - 900000
    ensures var w := At(Init(now, delay), run, n);
      row in w.rows <==> (exists a :: a in w.admitted && a.row == row) && row.epoch == Epoch(w, row.kind, row.key.value)
  {
    EmptyInv(now, delay);
    RunKeepsInv(Init(now, delay), run, n);
    RunKeepsOpen(Init(now, delay), run, n);
    hide At, Init, RowsOk, Throttled, UniqueRows;
  }

  // ---------------------------------------------------------------- the allowance is needed

  function Change(id: nat): Row {
    Row(id, PasswordChange, "pwchange", Some("u"), 0, 0)
  }

  function Changes(n: nat): set<Row> {
    set k: nat | k < n :: Change(k)
  }

  function Decided(rows: set<Row>, at: Time): set<Admission> {
    set r | r in rows :: Admission(r, at)
  }

  lemma {:induction false} ChangesAre(n: nat)
    ensures forall r :: r in Changes(n) <==> r.id < n && r == Change(r.id)
    ensures |Changes(n)| == n
  {
    if n > 0 {
      ChangesAre(n - 1);
      assert Changes(n) == Changes(n - 1) + {Change(n - 1)};
    }
  }

  lemma {:induction false} Extends(w: World, run: seq<Step>, step: Step)
    ensures At(w, run + [step], |run| + 1) == Apply(At(w, run, |run|), step)
  {
    SamePrefix(w, run, run + [step], |run|);
  }

  lemma {:induction false} SamePrefix(w: World, a: seq<Step>, b: seq<Step>, n: nat)
    requires n <= |a| && n <= |b| && forall i :: 0 <= i < n ==> a[i] == b[i]
    ensures At(w, a, n) == At(w, b, n)
  {
    hide Apply;
    if n > 0 { SamePrefix(w, a, b, n - 1); }
  }

  /** `n` password changes begun at 0. */
  lemma {:induction false} BeginMany(delay: nat, n: nat) returns (run: seq<Step>, begun: map<nat, Attempt>)
    ensures At(Init(0, delay), run, |run|) == Init(0, delay).(attempts := begun)
    ensures forall k :: 0 <= k < n ==> k in begun && begun[k] == Attempt(PasswordChange, "pwchange", Some("u"), 0)
  {
    run, begun := [], map[];
    if n > 0 {
      run, begun := BeginMany(delay, n - 1);
      Extends(Init(0, delay), run, Begin(n - 1, PasswordChange, "pwchange", Some("u")));
      run := run + [Begin(n - 1, PasswordChange, "pwchange", Some("u"))];
      begun := begun[n - 1 := Attempt(PasswordChange, "pwchange", Some("u"), 0)];
    }
  }

  lemma {:induction false} DecideAdmits(w: World, id: nat, failedAt: Time)
    requires id in w.attempts && w.attempts[id].kind == PasswordChange && w.attempts[id].key == Some("u") && w.epochs == map[]
    requires Timely(w, w.attempts[id], failedAt) && |RowsOfKey(w.rows, PasswordChange, "u", w.attempts[id].began - FAILURE_WINDOW_MS)| < 5
    ensures var row := NewRow(w.attempts[id], w.next, failedAt, 0);
      Apply(w, Decide(id, failedAt)) ==
        w.(attempts := w.attempts - {id}, next := w.next + 1, rows := w.rows + {row}, admitted := w.admitted + {Admission(row, w.now)})
  {
  }

  lemma {:induction false} BegunFive(delay: nat, took: nat) returns (run: seq<Step>, begun: map<nat, Attempt>)
    ensures At(Init(0, delay), run, |run|) == World(delay, took, 0, {}, begun, {}, map[])
    ensures forall k :: 0 <= k < 5 ==> k in begun && begun[k] == Attempt(PasswordChange, "pwchange", Some("u"), 0)
  {
    hide At;
    run, begun := BeginMany(delay, 5);
    Extends(Init(0, delay), run, Tick(took));
    run := run + [Tick(took)];
  }

  /** ... and decided after `took` milliseconds, as long as their limit allows. */
  lemma {:induction false} DecideMany(delay: nat, took: nat, n: nat) returns (run: seq<Step>, begun: map<nat, Attempt>)
    requires took <= delay && n <= 5
    ensures At(Init(0, delay), run, |run|) == AfterDecisions(delay, took, n, begun)
    ensures forall k :: n <= k < 5 ==> k in begun && begun[k] == Attempt(PasswordChange, "pwchange", Some("u"), 0)
  {
    hide At, Apply, AfterDecisions, Init;
    if n == 0 {
      run, begun := BegunFive(delay, took);
      NoDecisions(delay, took, begun);
    } else {
      run, begun := DecideMany(delay, took, n - 1);
      NextDecision(delay, took, n - 1, begun);
      Extends(Init(0, delay), run, Decide(n - 1, 0));
      run := run + [Decide(n - 1, 0)];
      begun := begun - {n - 1};
    }
  }

  function AfterDecisions(delay: nat, took: nat, n: nat, attempts: map<nat, Attempt>): World {
    World(delay, took, n, Changes(n), attempts, Decided(Changes(n), took), map[])
  }

  lemma {:induction false} NoDecisions(delay: nat, took: nat, attempts: map<nat, Attempt>)
    ensures AfterDecisions(delay, took, 0, attempts) == World(delay, took, 0, {}, attempts, {}, map[])
  {
  }

  lemma {:induction false} NextDecision(delay: nat, took: nat, n: nat, attempts: map<nat, Attempt>)
    requires took <= delay && n < 5 && n in attempts && attempts[n] == Attempt(PasswordChange, "pwchange", Some("u"), 0)
    ensures Apply(AfterDecisions(delay, took, n, attempts), Decide(n, 0)) == AfterDecisions(delay, took, n + 1, attempts - {n})
  {
    hide Apply;
    ChangesAre(n);
    assert Changes(n + 1) == Changes(n) + {Change(n)};
    hide Changes;
    SubsetSize(RowsOfKey(Changes(n), PasswordChange, "u", -FAILURE_WINDOW_MS), Changes(n));
    DecideAdmits(AfterDecisions(delay, took, n, attempts), n, 0);
    assert Decided(Changes(n + 1), took) == Decided(Changes(n), took) + {Admission(Change(n), took)};
  }

  /** Five password changes begun at 0 and decided `took` milliseconds later no longer count for
      one begun and decided a millisecond after their window. */
  lemma {:induction false} SixAdmitted(delay: nat, took: nat) returns (run: seq<Step>)
    requires took <= delay && took <= 900001
    ensures At(Init(0, delay), run, |run|).admitted == Decided(Changes(5), took) + {LastAdmission()}
  {
    var w, begun := Init(0, delay), map[];
    run, begun := DecideMany(delay, took, 5);
    ChangesAre(5);
    hide At, Changes;
    var w5 := At(w, run, |run|);
    Extends(w, run, Tick(900001 - took));
    run := run + [Tick(900001 - took)];
    Extends(w, run, Begin(5, PasswordChange, "pwchange", Some("u")));
    run := run + [Begin(5, PasswordChange, "pwchange", Some("u"))];
    var late := Attempt(PasswordChange, "pwchange", Some("u"), 900001);
    var w7 := At(w, run, |run|);
    assert w7 == w5.(now := 900001, attempts := begun[5 := late]);
    hide Apply;
    assert RowsOfKey(Changes(5), PasswordChange, "u", 1) == {};
    DecideAdmits(w7, 5, 900001);
    Extends(w, run, Decide(5, 900001));
    run := run + [Decide(5, 900001)];
  }

  function LastAdmission(): Admission {
    Admission(Row(5, PasswordChange, "pwchange", Some("u"), 900001, 0), 900001)
  }

  /** So for every longer stretch there is a run that exceeds the limit in it. */
  lemma {:induction false} LongerStretchOverflows(delay: nat, length: nat) returns (run: seq<Step>, from: Time)
    requires length + delay > 900000
    ensures |AdmittedIn(At(Init(0, delay), run, |run|).admitted, PasswordChange, "u", 0, from, from + length)| == 6
  {
    from := if delay <= 900001 then delay else 900001;
    run := SixAdmitted(delay, from);
    ChangesAre(5);
    CountDecided(Changes(5), from);
    hide At, Changes;
    var six := Decided(Changes(5), from) + {LastAdmission()};
    assert AdmittedIn(six, PasswordChange, "u", 0, from, from + length) == six;
    assert LastAdmission() !in Decided(Changes(5), from);
  }

  lemma {:induction false} CountDecided(rows: set<Row>, at: Time)
    ensures |Decided(rows, at)| == |rows|
    decreases rows
  {
    if rows != {} {
      var r :| r in rows;
      CountDecided(rows - {r}, at);
      assert Decided(rows, at) == Decided(rows - {r}, at) + {Admission(r, at)};
    }
  }

  /** The limit holds for every stretch of that length, in every run. */
  ghost predicate HoldsFor(delay: nat, length: nat) {
    forall now, run, kind, key, epoch, from :: HoldsIn(delay, length, now, run, kind, key, epoch, from)
  }

  ghost predicate HoldsIn(delay: nat, length: nat, now: Time, run: seq<Step>, kind: Kind, key: string, epoch: nat, from: Time) {
    WithinLimit(|AdmittedIn(At(Init(now, delay), run, |run|).admitted, kind, key, epoch, from, from + length)|, KeyLimit(kind))
  }

  /** The bound is sharp: the limit holds for stretches of a length exactly when the length and
      the longest delay add up to no more than the window. */
  lemma {:induction false} WhenTheLimitHolds(delay: nat, length: nat)
    ensures HoldsFor(delay, length) <==> length + delay <= 900000
  {
    if length + delay <= 900000 {
      forall now, run, kind, key, epoch, from ensures HoldsIn(delay, length, now, run, kind, key, epoch, from) {
        AttemptsAreThrottled(now, delay, run, |run|, kind, key, epoch, from, "");
        var admitted := At(Init(now, delay), run, |run|).admitted;
        SubsetSize(AdmittedIn(admitted, kind, key, epoch, from, from + length), AdmittedIn(admitted, kind, key, epoch, from, from + 900000 - delay));
      }
    } else {
      var run, from := LongerStretchOverflows(delay, length);
      assert !HoldsIn(delay, length, 0, run, PasswordChange, "u", 0, from);
    }
  }

  /** In particular it holds for full windows exactly where attempts are decided the moment they
      begin. */
  lemma {:induction false} FullWindowTakesNoDelay(delay: nat)
    ensures HoldsFor(delay, 900000) <==> delay == 0
  {
    WhenTheLimitHolds(delay, 900000);
  }

  lemma {:induction false} SameDelay(w: World, run: seq<Step>, n: nat)
    requires n <= |run|
    ensures At(w, run, n).delay == w.delay
  {
    if n > 0 { SameDelay(w, run, n - 1); }
  }

  // ---------------------------------------------------------------- locks

  function KindName(kind: Kind): string {
    match kind
    case Login => "login"
    case Device => "device"
    case PasswordChange => "password_change"
    case Setup => "setup"
  }

  /** The lock names of an attempt, sorted. */
  function LockNames(a: Attempt): seq<string> {
    var ipLock := if IpLimited(a.kind) then ["login:ip:" + a.ip] else [];
    var keyLock := if a.key.Some? then ["login:" + KindName(a.kind) + ":key:" + a.key.value] else [];
    if ipLock != [] && keyLock != [] && Less(keyLock[0], ipLock[0]) then keyLock + ipLock else ipLock + keyLock
  }

  lemma LocksAscend(a: Attempt)
    ensures forall i, j :: 0 <= i < j < |LockNames(a)| ==> Less(LockNames(a)[i], LockNames(a)[j])
  {
    if IpLimited(a.kind) && a.key.Some? {
      var ipLock, keyLock := "login:ip:" + a.ip, "login:" + KindName(a.kind) + ":key:" + a.key.value;
      LessTotal(ipLock, keyLock);
      assert ipLock[6] == 'i';
      assert keyLock[6] == KindName(a.kind)[0];
    }
  }

  function IpLock(ip: string): string {
    "login:ip:" + ip
  }

  function KeyLock(kind: Kind, key: string): string {
    "login:" + KindName(kind) + ":key:" + key
  }

  lemma LocksDiffer(ip: string, kind: Kind, key: string, ip': string, kind': Kind, key': string)
    ensures IpLock(ip) != KeyLock(kind, key)
    ensures IpLock(ip) == IpLock(ip') <==> ip == ip'
    ensures KeyLock(kind, key) == KeyLock(kind', key') <==> kind == kind' && key == key'
  {
    assert IpLock(ip)[6] == 'i' && KeyLock(kind, key)[6] == KindName(kind)[0] && KeyLock(kind', key')[6] == KindName(kind')[0];
    assert ip == IpLock(ip)[9..] && ip' == IpLock(ip')[9..];
    if kind == kind' {
      var n := |KindName(kind)| + 11;
      assert key == KeyLock(kind, key)[n..] && key' == KeyLock(kind', key')[n..];
    }
  }

  lemma LocksAre(a: Attempt, name: string)
    ensures name in LockNames(a) <==>
      (a.kind != PasswordChange && name == IpLock(a.ip)) || (a.key.Some? && name == KeyLock(a.kind, a.key.value))
  {
  }

  /** Two attempts take a common lock exactly when a row of one can count for the other: both count
      for one address, or they have the same kind and key. */
  lemma LocksMatchCounts(a: Attempt, b: Attempt)
    ensures (exists name :: name in LockNames(a) && name in LockNames(b)) <==>
      (a.kind != PasswordChange && b.kind != PasswordChange && a.ip == b.ip) || (a.kind == b.kind && a.key.Some? && a.key == b.key)
  {
    var x, y := if a.key.Some? then a.key.value else "", if b.key.Some? then b.key.value else "";
    LocksDiffer(a.ip, a.kind, x, b.ip, b.kind, y);
    LocksDiffer(b.ip, a.kind, x, a.ip, b.kind, y);
    LocksDiffer(a.ip, b.kind, y, b.ip, a.kind, x);
    forall name ensures name in LockNames(a) <==> (a.kind != PasswordChange && name == IpLock(a.ip)) || (a.key.Some? && name == KeyLock(a.kind, x)) { LocksAre(a, name); }
    forall name ensures name in LockNames(b) <==> (b.kind != PasswordChange && name == IpLock(b.ip)) || (b.key.Some? && name == KeyLock(b.kind, y)) { LocksAre(b, name); }
    hide LockNames, IpLock, KeyLock;
    if a.kind != PasswordChange && b.kind != PasswordChange && a.ip == b.ip { assert IpLock(a.ip) in LockNames(a); }
    if a.kind == b.kind && a.key.Some? && a.key == b.key { assert KeyLock(a.kind, x) in LockNames(a); }
  }

  /** A transaction that waits for its lock number `at` holds exactly the ones before it. */
  datatype Waiting = Waiting(attempt: Attempt, at: nat)

  ghost predicate WaitsFor(x: Waiting, y: Waiting) {
    && x.at < |LockNames(x.attempt)| && y.at < |LockNames(y.attempt)|
    && exists i :: 0 <= i < y.at && LockNames(y.attempt)[i] == LockNames(x.attempt)[x.at]
  }

  /** In a chain of transactions each waiting for the next, the awaited names ascend. */
  lemma {:induction false} WaitsAscend(chain: seq<Waiting>, i: nat, j: nat)
    requires i < j < |chain| && forall k :: 0 <= k < |chain| - 1 ==> WaitsFor(chain[k], chain[k + 1])
    ensures chain[i].at < |LockNames(chain[i].attempt)| && chain[j].at < |LockNames(chain[j].attempt)|
    ensures Less(LockNames(chain[i].attempt)[chain[i].at], LockNames(chain[j].attempt)[chain[j].at])
  {
    var m := j - 1;
    assert WaitsFor(chain[m], chain[m + 1]);
    LocksAscend(chain[j].attempt);
    if i < m {
      WaitsAscend(chain, i, m);
      LessTransitive(LockNames(chain[i].attempt)[chain[i].at], LockNames(chain[m].attempt)[chain[m].at], LockNames(chain[j].attempt)[chain[j].at]);
    }
  }

  /** So no set of attempts can wait for each other in a circle. */
  lemma NoDeadlock(chain: seq<Waiting>)
    requires |chain| > 1 && forall k :: 0 <= k < |chain| - 1 ==> WaitsFor(chain[k], chain[k + 1])
    ensures chain[0] != chain[|chain| - 1]
  {
    WaitsAscend(chain, 0, |chain| - 1);
    LessTotal(LockNames(chain[0].attempt)[chain[0].at], LockNames(chain[|chain| - 1].attempt)[chain[|chain| - 1].at]);
  }
}
