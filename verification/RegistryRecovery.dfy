/** That the registry listener always gets back on its feet: what each event does to it, how long it
    waits, and a way from every state to a current registry. */
module RegistryRecovery {
  import opened Basics
  import opened RegistryLoad
  import opened RegistryListener

  // ---------------------------------------------------------------- the connection

  /** A running listener has a connection, is making one, or has a timer set to make one; a stopped
      one has neither. */
  predicate KeepsConnecting(l: Listener) {
    if l.running then l.session != Closed || l.reconnect.Some? else l.session == Closed && l.reconnect.None?
  }

  lemma {:induction false} AlwaysReconnects(loads: Loads, run: seq<Step>, n: nat)
    requires LoadInv(loads) && n <= |run|
    ensures KeepsConnecting(At(Fresh(loads), run, n).listener)
  {
    if n > 0 {
      AlwaysReconnects(loads, run, n - 1);
      hide At;
      StepKeepsConnecting(At(Fresh(loads), run, n - 1), run[n - 1]);
    }
  }

  lemma StepKeepsConnecting(s: System, step: Step)
    requires s.loads.versions != [] && KeepsConnecting(s.listener)
    ensures KeepsConnecting(Apply(s, step).listener)
  {
    hide ApplyLoad, Doubled;
  }

  /** 1, 2, 4, ... seconds, and at most a minute. */
  function Wait(attempt: nat): int {
    if attempt < 6 then [1000, 2000, 4000, 8000, 16000, 32000][attempt] else 60000
  }

  predicate Drops(s: System, step: Step) {
    step.Lose? && s.listener.running && s.listener.session != Closed
  }

  /** The listener is started, or its connection has proved stable. */
  predicate StartsOver(s: System, step: Step) {
    (step.Start? && !s.listener.running) || (step.Stable? && s.listener.session == Listening(true))
  }

  /** Connections lost since the listener last started over. */
  function Losses(s: System, run: seq<Step>, n: nat): nat
    requires s.loads.versions != [] && n <= |run|
  {
    if n == 0 then 0
    else
      var before := At(s, run, n - 1);
      if StartsOver(before, run[n - 1]) then 0
      else Losses(s, run, n - 1) + if Drops(before, run[n - 1]) then 1 else 0
  }

  lemma {:induction false} BackoffIsWait(loads: Loads, run: seq<Step>, n: nat)
    requires loads.versions != [] && n <= |run|
    ensures At(Fresh(loads), run, n).listener.backoff == Wait(Losses(Fresh(loads), run, n))
  {
    if n > 0 {
      BackoffIsWait(loads, run, n - 1);
      var s := At(Fresh(loads), run, n - 1);
      BackoffStep(s, run[n - 1]);
      DoubledWait(Losses(Fresh(loads), run, n - 1));
      hide Apply;
    }
  }

  lemma BackoffStep(s: System, step: Step)
    requires s.loads.versions != []
    ensures Apply(s, step).listener.backoff ==
      if StartsOver(s, step) then 1000 else if Drops(s, step) then Doubled(s.listener.backoff) else s.listener.backoff
    ensures Drops(s, step) ==> Apply(s, step).listener.reconnect == Some(s.listener.backoff) && Apply(s, step).listener.session == Closed
  {
    hide ApplyLoad, Doubled;
  }

  lemma DoubledWait(k: nat)
    ensures Doubled(Wait(k)) == Wait(k + 1)
  {
  }

  /** A lost connection is made again after 1, 2, 4, ... seconds, at most a minute, counted from the
      last start or stable connection. */
  lemma ReconnectsAfter(loads: Loads, run: seq<Step>, n: nat)
    requires loads.versions != [] && n < |run| && Drops(At(Fresh(loads), run, n), run[n])
    ensures At(Fresh(loads), run, n + 1).listener.reconnect == Some(Wait(Losses(Fresh(loads), run, n)))
  {
    BackoffIsWait(loads, run, n);
    BackoffStep(At(Fresh(loads), run, n), run[n]);
    hide Apply, Losses;
  }

  // ---------------------------------------------------------------- reloads

  /** A load of the listener, started now, with that retry delay. */
  predicate LoadsAgain(s: System, s': System, delay: int)
    requires s.loads.versions != []
  {
    && s'.listener.reload == Loading(s.loads.loader.nextGeneration + 1, delay) && !s'.listener.reloadQueued
    && s'.loads == ApplyLoad(s.loads, LoadStep.Start)
  }

  /** A notification starts a reload when none is under way and is queued otherwise. */
  lemma WhatANotificationStarts(s: System)
    requires s.loads.versions != [] && s.listener.session.Listening? && s.undelivered > 0
    ensures var s' := Apply(s, Deliver);
      && s'.undelivered == s.undelivered - 1
      && if s.listener.reload.Idle? then LoadsAgain(s, s', 1000) else s'.listener == s.listener.(reloadQueued := true) && s'.loads == s.loads
  {
    hide Build;
  }

  /** The end of the listener's own load: success ends the reload or starts the one that was queued, a
      failure is retried after the delay, unless the listener was stopped. */
  lemma WhatEndsALoad(s: System, g: nat, ok: bool)
    requires s.loads.versions != [] && s.listener.reload.Loading? && s.listener.reload.generation == g
    requires g in s.loads.active && (ok ==> s.loads.active[g].read.Some?)
    ensures var s', l := Apply(s, Finish(g, ok)), s.listener;
      var ended := s.(loads := ApplyLoad(s.loads, if ok then Succeed(g) else Fail(g)));
      if ok && l.reloadQueued then LoadsAgain(ended, s', 1000)
      else s' == ended.(listener := l.(reload := if ok || !l.running then Idle else Sleeping(l.reload.delay)))
  {
    hide Build;
  }

  /** After the delay the load is tried again, with twice the delay up to a minute. */
  lemma WhatAWakeDoes(s: System)
    requires s.loads.versions != [] && s.listener.reload.Sleeping?
    ensures var s', l := Apply(s, WakeRetry), s.listener;
      if l.running then LoadsAgain(s, s', if 2 * l.reload.delay < 60000 then 2 * l.reload.delay else 60000)
      else s' == s.(listener := l.(reload := Idle))
  {
    hide Build;
  }

  // ---------------------------------------------------------------- a way out of every state

  /** The listener is connected and at rest, with nothing outstanding. */
  predicate AtRest(s: System) {
    s.listener.session == Listening(true) && s.listener.reload == Idle && s.undelivered == 0
  }

  /** The run leads from `s` to `s'`, and the table does not change meanwhile. */
  ghost predicate Leads(s: System, run: seq<Step>, s': System)
    requires s.loads.versions != []
  {
    At(s, run, |run|) == s' && s'.loads.versions == s.loads.versions && s'.listener.running
  }

  lemma {:induction false} AtAppend(s: System, a: seq<Step>, b: seq<Step>)
    requires s.loads.versions != []
    ensures At(s, a + b, |a + b|) == At(At(s, a, |a|), b, |b|)
  {
    hide Apply;
    if b == [] {
      assert a + b == a;
    } else {
      var front := b[..|b| - 1];
      AtAppend(s, a, front);
      SamePrefix(s, a + b, a + front, |a + front|);
      SamePrefix(At(s, a, |a|), b, front, |front|);
    }
  }

  lemma Then(s: System, a: seq<Step>, t: System, b: seq<Step>, u: System)
    requires s.loads.versions != [] && Leads(s, a, t) && Leads(t, b, u)
    ensures Leads(s, a + b, u)
  {
    AtAppend(s, a, b);
    hide Apply;
  }

  lemma OneStep(s: System, step: Step)
    requires s.loads.versions != [] && Apply(s, step).listener.running && Apply(s, step).loads.versions == s.loads.versions
    ensures Leads(s, [step], Apply(s, step))
  {
    hide Apply;
    assert At(s, [step], 1) == Apply(At(s, [step], 0), step);
  }

  lemma Reachable(s: System, run: seq<Step>, s': System)
    requires s.loads.versions != [] && Inv(s) && Leads(s, run, s')
    ensures Inv(s')
  {
    RunKeepsInv(s, run, |run|);
    hide Apply, Inv;
  }

  lemma Connects(s: System) returns (run: seq<Step>, s': System)
    requires s.loads.versions != [] && s.listener.running && KeepsConnecting(s.listener)
    ensures Leads(s, run, s') && s'.listener.session == Listening(true)
  {
    hide ApplyLoad, At;
    if s.listener.session == Listening(true) {
      run, s' := [], s;
      assert At(s, [], 0) == s by { EmptyRun(s); }
    } else if s.listener.session == Listening(false) {
      OneStep(s, Establish);
      run, s' := [Establish], Apply(s, Establish);
    } else if s.listener.session == Connecting {
      OneStep(s, Listen);
      var t := Apply(s, Listen);
      OneStep(t, Establish);
      Then(s, [Listen], t, [Establish], Apply(t, Establish));
      run, s' := [Listen] + [Establish], Apply(t, Establish);
    } else {
      OneStep(s, Reconnect);
      var t := Apply(s, Reconnect);
      var rest;
      rest, s' := ConnectsFrom(t);
      Then(s, [Reconnect], t, rest, s');
      run := [Reconnect] + rest;
    }
  }

  lemma EmptyRun(s: System)
    requires s.loads.versions != []
    ensures At(s, [], 0) == s
  {
  }

  lemma ConnectsFrom(s: System) returns (run: seq<Step>, s': System)
    requires s.loads.versions != [] && s.listener.running && s.listener.session == Connecting
    ensures Leads(s, run, s') && s'.listener.session == Listening(true)
  {
    hide ApplyLoad, At;
    OneStep(s, Listen);
    var t := Apply(s, Listen);
    OneStep(t, Establish);
    Then(s, [Listen], t, [Establish], Apply(t, Establish));
    run, s' := [Listen] + [Establish], Apply(t, Establish);
  }

  /** All notifications are delivered. */
  lemma {:induction false} Delivers(s: System) returns (run: seq<Step>, s': System)
    requires s.loads.versions != [] && s.listener.running && s.listener.session == Listening(true)
    ensures Leads(s, run, s') && s'.listener.session == Listening(true) && s'.undelivered == 0
    decreases s.undelivered
  {
    if s.undelivered == 0 {
      run, s' := [], s;
    } else {
      WhatANotificationStarts(s);
      OneStep(s, Deliver);
      var t := Apply(s, Deliver);
      DeliverKeeps(s);
      hide Apply, At;
      var rest;
      rest, s' := Delivers(t);
      Then(s, [Deliver], t, rest, s');
      run := [Deliver] + rest;
    }
  }

  lemma DeliverKeeps(s: System)
    requires s.loads.versions != []
    ensures Apply(s, Deliver).listener.running == s.listener.running && Apply(s, Deliver).listener.session == s.listener.session
    ensures Apply(s, Deliver).loads.versions == s.loads.versions
  {
  }

  /** The load under way reads the table and succeeds. */
  lemma LoadSucceeds(s: System) returns (run: seq<Step>, s': System)
    requires s.loads.versions != [] && Inv(s) && s.listener.running && s.listener.session == Listening(true) && s.undelivered == 0 && s.listener.reload.Loading?
    ensures Leads(s, run, s') && s'.listener.session == Listening(true) && s'.undelivered == 0
    ensures s'.listener.reload.Idle? || (s'.listener.reload.Loading? && !s'.listener.reloadQueued)
    ensures !s.listener.reloadQueued ==> s'.listener.reload.Idle?
  {
    var g := s.listener.reload.generation;
    var t := Apply(s, Step.Read(g));
    ReadsTable(s, g);
    OneStep(s, Step.Read(g));
    WhatEndsALoad(t, g, true);
    EndKeeps(t, g);
    OneStep(t, Finish(g, true));
    s' := Apply(t, Finish(g, true));
    hide Apply, At;
    Then(s, [Step.Read(g)], t, [Finish(g, true)], s');
    run := [Step.Read(g)] + [Finish(g, true)];
  }

  lemma ReadsTable(s: System, g: nat)
    requires s.loads.versions != [] && g in s.loads.active
    ensures var t := Apply(s, Step.Read(g));
      && t == s.(loads := t.loads) && t.loads.versions == s.loads.versions && g in t.loads.active && t.loads.active[g].read.Some?
  {
  }

  lemma EndKeeps(s: System, g: nat)
    requires s.loads.versions != []
    ensures var s' := Apply(s, Finish(g, true));
      && s'.listener.running == s.listener.running && s'.listener.session == s.listener.session && s'.undelivered == s.undelivered
      && s'.loads.versions == s.loads.versions
  {
  }

  lemma ComesToRest(s: System) returns (run: seq<Step>, s': System)
    requires s.loads.versions != [] && Inv(s) && s.listener.running && s.listener.session == Listening(true) && s.undelivered == 0
    ensures Leads(s, run, s') && AtRest(s')
  {
    hide Apply, At, Inv;
    if s.listener.reload.Idle? {
      run, s' := [], s;
      EmptyRun(s);
    } else if s.listener.reload.Sleeping? {
      WhatAWakeDoes(s);
      WakeKeeps(s);
      OneStep(s, WakeRetry);
      var t := Apply(s, WakeRetry);
      Reachable(s, [WakeRetry], t);
      var rest;
      rest, s' := LoadSucceeds(t);
      Then(s, [WakeRetry], t, rest, s');
      run := [WakeRetry] + rest;
    } else {
      var t;
      run, t := LoadSucceeds(s);
      Reachable(s, run, t);
      if t.listener.reload.Idle? {
        s' := t;
      } else {
        var rest;
        rest, s' := LoadSucceeds(t);
        Then(s, run, t, rest, s');
        run := run + rest;
      }
    }
  }

  lemma WakeKeeps(s: System)
    requires s.loads.versions != []
    ensures var s' := Apply(s, WakeRetry);
      && s'.listener.running == s.listener.running && s'.listener.session == s.listener.session && s'.undelivered == s.undelivered
      && s'.loads.versions == s.loads.versions
  {
  }

  /** From every state that a running listener can be in there is a way to one in which it listens, has
      nothing left to do, and the registry is that of the table as it is now. */
  lemma RegistryCatchesUp(loads: Loads, run: seq<Step>) returns (rest: seq<Step>)
    requires LoadInv(loads) && At(Fresh(loads), run, |run|).listener.running
    ensures var s, s' := At(Fresh(loads), run, |run|), At(Fresh(loads), run + rest, |run + rest|);
      AtRest(s') && s'.loads.versions == s.loads.versions && s'.loads.loader.registry == Build(s.loads.versions[|s.loads.versions| - 1])
  {
    var s := At(Fresh(loads), run, |run|);
    AlwaysReconnects(loads, run, |run|);
    FreshInv(loads);
    RunKeepsInv(Fresh(loads), run, |run|);
    hide At, Apply, Inv, Build, LoadInv, Fresh;
    var a, t := Connects(s);
    var b, u := Delivers(t);
    Then(s, a, t, b, u);
    Reachable(s, a + b, u);
    var c, v := ComesToRest(u);
    Then(s, a + b, u, c, v);
    rest := a + b + c;
    AtAppend(Fresh(loads), run, rest);
    QuiescentMeansCurrent(loads, run + rest, |run + rest|);
  }
}
