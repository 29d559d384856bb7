/** The LISTEN connection that keeps the registry current (registry-listener.ts): reloads
    are coalesced, failed ones retried, and a lost connection is re-established. */
module RegistryListener {
  import opened Basics
  import opened RegistryLoad

  const INITIAL_BACKOFF_MS := 1000
  const MAX_BACKOFF_MS := 60 * 1000

  function Doubled(delay: int): int {
    if delay * 2 < MAX_BACKOFF_MS then delay * 2 else MAX_BACKOFF_MS
  }

  /** The `reloading` loop: at its load, or waiting before a retry; `delay` is its retry
      delay. */
  datatype Reload = Idle | Loading(generation: nat, delay: int) | Sleeping(delay: int)

  /** The connection. `Listening` begins when the database executes LISTEN; `requested` says
      that connect() has gone on to its first reload. */
  datatype Session = Closed | Connecting | Listening(requested: bool)

  datatype Listener = Listener(running: bool, reload: Reload, reloadQueued: bool, session: Session, reconnect: Option<int>, backoff: int)

  /** requestReload(): joins the running reload, or asks for a load (the flag). */
  function Requested(l: Listener): (Listener, bool) {
    if l.reload != Idle then (l.(reloadQueued := true), false)
    else (l.(reloadQueued := false), true)
  }

  /** The load asked for has been given its generation. */
  function LoadBegun(l: Listener, generation: nat, delay: int): Listener {
    l.(reload := Loading(generation, delay))
  }

  /** The listener's own load has ended; the flag asks for the next one. */
  function LoadEnded(l: Listener, ok: bool): (Listener, bool) {
    if ok then
      if l.reloadQueued then (l.(reloadQueued := false), true) else (l.(reload := Idle), false)
    else if !l.running then (l.(reload := Idle), false)
    else (l.(reload := Sleeping(if l.reload.Loading? then l.reload.delay else INITIAL_BACKOFF_MS)), false)
  }

  /** The retry sleep is over: the timer fired, or stop woke it. */
  function Woken(l: Listener): (Listener, bool) {
    if !l.running then (l.(reload := Idle), false) else (l.(reloadQueued := false), true)
  }

  function Lost(l: Listener): Listener {
    if l.session == Closed then l
    else if !l.running then l.(session := Closed)
    else l.(session := Closed, reconnect := Some(l.backoff), backoff := Doubled(l.backoff))
  }

  function Reconnects(l: Listener): Listener {
    if l.reconnect.None? then l else l.(reconnect := None, session := if l.running then Connecting else l.session)
  }

  function Started(l: Listener): Listener {
    if l.running then l else l.(running := true, backoff := INITIAL_BACKOFF_MS, session := Connecting)
  }

  function Stopped(l: Listener): Listener {
    l.(running := false, reconnect := None, session := Closed)
  }

  // ---------------------------------------------------------------- the module's variables

  class ListenerState {
    var running: bool
    var reload: Reload
    var reloadQueued: bool
    var session: Session
    var reconnect: Option<int>
    var backoffMs: int

    function Snapshot(): Listener
      reads this
    {
      Listener(running, reload, reloadQueued, session, reconnect, backoffMs)
    }

    constructor ()
      ensures Snapshot() == Listener(false, Idle, false, Closed, None, INITIAL_BACKOFF_MS)
    {
      running, reload, reloadQueued, session, reconnect, backoffMs := false, Idle, false, Closed, None, INITIAL_BACKOFF_MS;
    }

    /** `loads` tells the caller to start a load and report its generation. */
    method RequestReload() returns (loads: bool)
      modifies this
      ensures (Snapshot(), loads) == Requested(old(Snapshot()))
    {
      if reload != Idle { reloadQueued := true; return false; }
      reloadQueued := false;
      loads := true;
    }

    method BeginLoad(generation: nat, delay: int)
      modifies this
      ensures Snapshot() == LoadBegun(old(Snapshot()), generation, delay)
    {
      reload := Loading(generation, delay);
    }

    method EndLoad(ok: bool) returns (loads: bool)
      requires reload.Loading?
      modifies this
      ensures (Snapshot(), loads) == LoadEnded(old(Snapshot()), ok)
    {
      loads := false;
      if ok {
        if reloadQueued { reloadQueued := false; loads := true; } else { reload := Idle; }
      } else if !running {
        reload := Idle;
      } else {
        reload := Sleeping(reload.delay);
      }
    }

    method Wake() returns (loads: bool)
      modifies this
      ensures (Snapshot(), loads) == Woken(old(Snapshot()))
    {
      if !running { reload := Idle; return false; }
      reloadQueued := false;
      loads := true;
    }

    method ConnectionLost()
      modifies this
      ensures Snapshot() == Lost(old(Snapshot()))
    {
      if session == Closed { return; }
      session := Closed;
      if !running { return; }
      reconnect := Some(backoffMs);
      backoffMs := if backoffMs * 2 < MAX_BACKOFF_MS then backoffMs * 2 else MAX_BACKOFF_MS;
    }

    method Start()
      modifies this
      ensures Snapshot() == Started(old(Snapshot()))
    {
      if running { return; }
      running, backoffMs, session := true, INITIAL_BACKOFF_MS, Connecting;
    }

    method Stop()
      modifies this
      ensures Snapshot() == Stopped(old(Snapshot()))
    {
      running, reconnect, session := false, None, Closed;
    }
  }

  // ---------------------------------------------------------------- with the database and its loads

  /** `undelivered` are the notifications the database holds for the connection; `need` is
      the database version at the last request for a reload (history). */
  datatype System = System(loads: Loads, listener: Listener, undelivered: nat, need: nat)

  datatype Step =
    | Commit(rows: Rows)
    | StartOther
    | Read(generation: nat)
    | Finish(generation: nat, ok: bool)
    | WakeRetry
    | Start
    | Listen
    | Establish
    | Deliver
    | Lose
    | Reconnect
    | Stable
    | Stop

  function BeginFor(s: System, l: Listener, delay: int): (s': System)
    requires s.loads.versions != []
    ensures s'.loads.versions == s.loads.versions
  {
    var loads := ApplyLoad(s.loads, LoadStep.Start);
    s.(loads := loads, listener := LoadBegun(l, loads.loader.nextGeneration, delay))
  }

  function Request(s: System): (s': System)
    requires s.loads.versions != []
    ensures s'.loads.versions == s.loads.versions
  {
    var (l, begins) := Requested(s.listener);
    var noted := s.(need := Current(s.loads), listener := l);
    if begins then BeginFor(noted, l, INITIAL_BACKOFF_MS) else noted
  }

  /** A load the listener did not start ends without it noticing. */
  function Apply(s: System, step: Step): (s': System)
    requires s.loads.versions != []
    ensures s'.loads.versions != []
  {
    var l := s.listener;
    match step
    case Commit(rows) =>
      s.(loads := ApplyLoad(s.loads, LoadStep.Commit(rows)), undelivered := if l.session.Listening? then s.undelivered + 1 else s.undelivered)
    case StartOther => s.(loads := ApplyLoad(s.loads, LoadStep.Start))
    case Read(g) => s.(loads := ApplyLoad(s.loads, LoadStep.Read(g)))
    case Finish(g, ok) =>
      if g !in s.loads.active || (ok && s.loads.active[g].read.None?) then s
      else
        var s1 := s.(loads := ApplyLoad(s.loads, if ok then Succeed(g) else Fail(g)));
        if !l.reload.Loading? || l.reload.generation != g then s1
        else
          var (l1, begins) := LoadEnded(l, ok);
          if begins then BeginFor(s1, l1, INITIAL_BACKOFF_MS) else s1.(listener := l1)
    case WakeRetry =>
      if !l.reload.Sleeping? then s
      else
        var (l1, begins) := Woken(l);
        if begins then BeginFor(s, l1, Doubled(l.reload.delay)) else s.(listener := l1)
    case Start => s.(listener := Started(l))
    case Listen => if l.session != Connecting then s else s.(listener := l.(session := Listening(false)), undelivered := 0)
    case Establish => if l.session != Listening(false) then s else Request(s.(listener := l.(session := Listening(true))))
    case Deliver => if !l.session.Listening? || s.undelivered == 0 then s else Request(s.(undelivered := s.undelivered - 1))
    case Lose => s.(listener := Lost(l), undelivered := 0)
    case Reconnect => s.(listener := Reconnects(l))
    case Stable => if l.session == Listening(true) then s.(listener := l.(backoff := INITIAL_BACKOFF_MS)) else s
    case Stop => s.(listener := Stopped(l), undelivered := 0)
  }

  function At(s: System, run: seq<Step>, n: nat): (s': System)
    requires s.loads.versions != [] && n <= |run|
    ensures s'.loads.versions != []
  {
    if n == 0 then s else Apply(At(s, run, n - 1), run[n - 1])
  }

  predicate Covered(s: System) {
    s.loads.loader.appliedGeneration in s.loads.starts && s.need <= s.loads.starts[s.loads.loader.appliedGeneration]
  }

  /** The reload that is under way, or queued, will cover the last request. */
  ghost predicate NoLostWakeup(s: System) {
    var l := s.listener;
    l.session == Listening(true) ==>
      match l.reload
      case Idle => Covered(s)
      case Loading(g, _) => l.reloadQueued || (g in s.loads.starts && s.need <= s.loads.starts[g])
      case Sleeping(_) => true
  }

  predicate DelayOk(delay: int) {
    INITIAL_BACKOFF_MS <= delay <= MAX_BACKOFF_MS
  }

  ghost predicate Inv(s: System) {
    && LoadInv(s.loads) && s.need < |s.loads.versions|
    && (s.listener.session != Closed ==> s.listener.running)
    && (s.listener.session == Listening(true) ==> Current(s.loads) <= s.need + s.undelivered)
    && (s.listener.reload.Loading? ==> s.listener.reload.generation in s.loads.active && DelayOk(s.listener.reload.delay))
    && (s.listener.reload.Sleeping? ==> DelayOk(s.listener.reload.delay))
    && DelayOk(s.listener.backoff) && (s.listener.reconnect.Some? ==> DelayOk(s.listener.reconnect.value))
    && NoLostWakeup(s)
  }

  lemma StartLoads(w: Loads)
    requires LoadInv(w)
    ensures var w' := ApplyLoad(w, LoadStep.Start); var g := w'.loader.nextGeneration;
      && LoadInv(w') && g in w'.active && g in w'.starts && w'.starts[g] == Current(w) && Current(w') == Current(w)
      && w'.loader.appliedGeneration == w.loader.appliedGeneration
      && forall h :: h in w.starts ==> h in w'.starts && w'.starts[h] == w.starts[h]
  {
    StepKeepsLoads(w, LoadStep.Start);
  }

  lemma BeginKeeps(s: System, l: Listener, delay: int)
    requires LoadInv(s.loads) && s.need < |s.loads.versions| && DelayOk(delay)
    requires DelayOk(l.backoff) && (l.reconnect.Some? ==> DelayOk(l.reconnect.value))
    requires l.session != Closed ==> l.running
    requires l.session == Listening(true) ==> Current(s.loads) <= s.need + s.undelivered
    ensures Inv(BeginFor(s, l, delay))
  {
    StartLoads(s.loads);
    hide LoadInv, ApplyLoad;
  }

  lemma RequestKeeps(s: System)
    requires LoadInv(s.loads) && s.need < |s.loads.versions| && s.listener.session.Listening? && s.listener.running
    requires DelayOk(s.listener.backoff) && (s.listener.reconnect.Some? ==> DelayOk(s.listener.reconnect.value))
    requires s.listener.reload.Loading? ==> s.listener.reload.generation in s.loads.active && DelayOk(s.listener.reload.delay)
    requires s.listener.reload.Sleeping? ==> DelayOk(s.listener.reload.delay)
    ensures Inv(Request(s))
  {
    hide ApplyLoad;
    var (l, begins) := Requested(s.listener);
    if begins { BeginKeeps(s.(need := Current(s.loads), listener := l), l, INITIAL_BACKOFF_MS); }
    hide LoadInv;
  }

  lemma EndedLoads(w: Loads, g: nat, ok: bool)
    requires LoadInv(w) && g in w.active && (ok ==> w.active[g].read.Some?)
    ensures var w' := ApplyLoad(w, if ok then Succeed(g) else Fail(g));
      && LoadInv(w') && w'.versions == w.versions && w'.starts == w.starts && w'.active == w.active - {g}
      && (ok ==> Reflects(w', w.starts[g]))
      && (forall v :: Reflects(w, v) ==> Reflects(w', v))
  {
    StepKeepsLoads(w, if ok then Succeed(g) else Fail(g));
    if ok { SuccessReflects(w, Succeed(g), g); }
    forall v | Reflects(w, v) ensures Reflects(ApplyLoad(w, if ok then Succeed(g) else Fail(g)), v) {
      StepKeepsReflects(w, if ok then Succeed(g) else Fail(g), v);
    }
  }

  lemma FinishKeeps(s: System, g: nat, ok: bool)
    requires Inv(s)
    ensures Inv(Apply(s, Finish(g, ok)))
  {
    var l := s.listener;
    if g in s.loads.active && (ok ==> s.loads.active[g].read.Some?) {
      if !l.reload.Loading? || l.reload.generation != g {
        OtherEndKeeps(s, g, ok);
      } else if ok && l.reloadQueued {
        EndedLoads(s.loads, g, ok);
        var s1 := s.(loads := ApplyLoad(s.loads, Succeed(g)));
        BeginKeeps(s1, l.(reloadQueued := false), INITIAL_BACKOFF_MS);
      } else {
        OwnEndKeeps(s, g, ok);
      }
      hide Inv, ApplyLoad;
    }
  }

  lemma OtherEndKeeps(s: System, g: nat, ok: bool)
    requires Inv(s) && g in s.loads.active && (ok ==> s.loads.active[g].read.Some?)
    requires s.listener.reload.Loading? ==> s.listener.reload.generation != g
    ensures Inv(s.(loads := ApplyLoad(s.loads, if ok then Succeed(g) else Fail(g))))
  {
    EndedLoads(s.loads, g, ok);
    assert Covered(s) ==> Reflects(s.loads, s.need);
    hide LoadInv, ApplyLoad;
  }

  lemma OwnEndKeeps(s: System, g: nat, ok: bool)
    requires Inv(s) && g in s.loads.active && (ok ==> s.loads.active[g].read.Some? && !s.listener.reloadQueued)
    requires s.listener.reload.Loading? && s.listener.reload.generation == g
    ensures Inv(s.(loads := ApplyLoad(s.loads, if ok then Succeed(g) else Fail(g)), listener := LoadEnded(s.listener, ok).0))
  {
    EndedLoads(s.loads, g, ok);
    assert ok ==> Reflects(ApplyLoad(s.loads, Succeed(g)), s.loads.starts[g]);
    hide LoadInv, ApplyLoad;
  }

  lemma ReadKeeps(s: System, g: nat)
    requires Inv(s)
    ensures Inv(Apply(s, Step.Read(g)))
  {
    StepKeepsLoads(s.loads, LoadStep.Read(g));
    hide LoadInv;
  }

  lemma CommitKeeps(s: System, rows: Rows)
    requires Inv(s)
    ensures Inv(Apply(s, Step.Commit(rows)))
  {
    StepKeepsLoads(s.loads, LoadStep.Commit(rows));
    hide LoadInv;
  }

  lemma OtherLoadKeeps(s: System)
    requires Inv(s)
    ensures Inv(Apply(s, StartOther))
  {
    StartLoads(s.loads);
    assert s.loads.loader.nextGeneration + 1 !in s.loads.active;
    assert ApplyLoad(s.loads, LoadStep.Start).active.Keys == s.loads.active.Keys + {s.loads.loader.nextGeneration + 1};
    hide LoadInv;
  }

  lemma SessionKeeps(s: System, step: Step)
    requires Inv(s) && (step.WakeRetry? || step.Start? || step.Listen? || step.Establish? || step.Deliver? || step.Lose? || step.Reconnect? || step.Stable? || step.Stop?)
    ensures Inv(Apply(s, step))
  {
    hide LoadInv, ApplyLoad, BeginFor, Request;
    match step
    case WakeRetry =>
      if s.listener.reload.Sleeping? && s.listener.running { BeginKeeps(s, Woken(s.listener).0, Doubled(s.listener.reload.delay)); }
    case Establish =>
      if s.listener.session == Listening(false) { RequestKeeps(s.(listener := s.listener.(session := Listening(true)))); }
    case Deliver =>
      if s.listener.session.Listening? && s.undelivered > 0 { RequestKeeps(s.(undelivered := s.undelivered - 1)); }
    case _ =>
  }

  lemma StepKeepsInv(s: System, step: Step)
    requires Inv(s)
    ensures Inv(Apply(s, step))
  {
    match step
    case Commit(rows) => CommitKeeps(s, rows);
    case StartOther => OtherLoadKeeps(s);
    case Read(g) => ReadKeeps(s, g);
    case Finish(g, ok) => FinishKeeps(s, g, ok);
    case _ => SessionKeeps(s, step);
  }

  lemma {:induction false} RunKeepsInv(s: System, run: seq<Step>, n: nat)
    requires s.loads.versions != [] && Inv(s) && n <= |run|
    ensures Inv(At(s, run, n))
  {
    hide Apply, Inv;
    if n > 0 {
      RunKeepsInv(s, run, n - 1);
      StepKeepsInv(At(s, run, n - 1), run[n - 1]);
    }
  }

  /** A process that has not started its listener yet. */
  function Fresh(loads: Loads): System
    requires loads.versions != []
  {
    System(loads, Listener(false, Idle, false, Closed, None, INITIAL_BACKOFF_MS), 0, Current(loads))
  }

  /** No wakeup is lost: while the connection listens and no reload is under way, the last
      successful load started after the last notification was delivered. Once no notification
      is outstanding either, the registry is the current state of the table. */
  lemma QuiescentMeansCurrent(loads: Loads, run: seq<Step>, n: nat)
    requires LoadInv(loads) && n <= |run|
    ensures var s := At(Fresh(loads), run, n);
      s.listener.session == Listening(true) && s.listener.reload == Idle ==>
        && Covered(s)
        && (s.undelivered == 0 ==> s.loads.loader.registry == Build(s.loads.versions[|s.loads.versions| - 1]))
  {
    hide At, Build, LoadInv, Inv;
    FreshInv(loads);
    RunKeepsInv(Fresh(loads), run, n);
    var s := At(Fresh(loads), run, n);
    if s.listener.session == Listening(true) && s.listener.reload == Idle { CurrentWhenQuiet(s); }
  }

  lemma FreshInv(loads: Loads)
    requires LoadInv(loads)
    ensures Inv(Fresh(loads))
  {
    hide Build;
  }

  lemma CurrentWhenQuiet(s: System)
    requires s.loads.versions != [] && Inv(s) && s.listener.session == Listening(true) && s.listener.reload == Idle
    ensures Covered(s)
    ensures s.undelivered == 0 ==> s.loads.loader.registry == Build(s.loads.versions[|s.loads.versions| - 1])
  {
    hide Build;
  }

  // ---------------------------------------------------------------- coalescing and back-off

  lemma DeliverQueues(s: System)
    requires s.loads.versions != [] && s.listener.reload.Loading? && s.listener.session.Listening? && s.undelivered > 0
    ensures Apply(s, Deliver).listener == s.listener.(reloadQueued := true) && Apply(s, Deliver).loads == s.loads
    ensures Apply(s, Deliver).undelivered == s.undelivered - 1
  {
  }

  /** Any number of notifications delivered during a load ask for one further load. */
  lemma {:induction false} BurstCoalesces(s: System, burst: nat)
    requires s.loads.versions != [] && s.listener.reload.Loading? && s.listener.session.Listening? && 0 < burst <= s.undelivered
    ensures var s' := At(s, seq(burst, _ => Deliver), burst);
      s'.listener == s.listener.(reloadQueued := true) && s'.loads == s.loads && s'.undelivered == s.undelivered - burst
  {
    hide Apply;
    var run := seq(burst, _ => Deliver);
    if burst == 1 {
      assert At(s, run, 1) == Apply(At(s, run, 0), Deliver);
      DeliverQueues(s);
    } else {
      var less := seq(burst - 1, _ => Deliver);
      SamePrefix(s, run, less, burst - 1);
      BurstCoalesces(s, burst - 1);
      DeliverQueues(At(s, run, burst - 1));
    }
  }

  lemma {:induction false} SamePrefix(s: System, a: seq<Step>, b: seq<Step>, n: nat)
    requires s.loads.versions != [] && n <= |a| && n <= |b| && forall i :: 0 <= i < n ==> a[i] == b[i]
    ensures At(s, a, n) == At(s, b, n)
  {
    hide Apply;
    if n > 0 { SamePrefix(s, a, b, n - 1); }
  }

  /** As long as no connection proves stable and the listener is not restarted, the reconnect
      delay never shrinks, so a connection that keeps dropping is not retried in a tight loop. */
  lemma {:induction false} BackoffGrows(s: System, run: seq<Step>, n: nat)
    requires s.loads.versions != [] && Inv(s) && n <= |run| && forall i :: 0 <= i < n ==> run[i] != Stable && run[i] != Step.Start
    ensures Slower(s.listener, At(s, run, n).listener)
  {
    hide Apply, Inv, Slower;
    if n > 0 {
      BackoffGrows(s, run, n - 1);
      RunKeepsInv(s, run, n - 1);
      BackoffStep(At(s, run, n - 1), run[n - 1]);
      SlowerStill(s.listener, At(s, run, n - 1).listener, At(s, run, n).listener);
    } else {
      SlowerStill(s.listener, s.listener, s.listener);
    }
  }

  /** No reconnect scheduled since `a` waits less than `a` would have. */
  predicate Slower(a: Listener, b: Listener) {
    b.backoff >= a.backoff && (b.reconnect.Some? && b.reconnect != a.reconnect ==> b.reconnect.value >= a.backoff)
  }

  lemma SlowerStill(a: Listener, b: Listener, c: Listener)
    ensures Slower(a, a)
    ensures Slower(a, b) && Slower(b, c) ==> Slower(a, c)
  {
  }

  lemma BackoffStep(s: System, step: Step)
    requires s.loads.versions != [] && Inv(s) && step != Stable && step != Step.Start
    ensures Slower(s.listener, Apply(s, step).listener)
  {
    hide ApplyLoad, LoadInv;
  }
}
