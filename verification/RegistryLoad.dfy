/** loadRegistry (resource-registry.ts): loads overlap, read the database at any moment
    between start and finish, fail, and finish in any order. */
module RegistryLoad {
  import opened Basics
  import opened ResourceRegistry
  import opened RegistryJoin

  type Rows = seq<RegistryRow>

  function Build(rows: Rows): Registry {
    if rows == [] then map[] else
      var front := Build(rows[..|rows| - 1]);
      match Join(rows[|rows| - 1])
      case None => front
      case Some(server) => front[server.identifier := server]
  }

  /** The module's variables and the steps of a load on them. */
  datatype Loader = Loader(nextGeneration: nat, appliedGeneration: nat, registry: Registry)

  function Began(l: Loader): Loader {
    l.(nextGeneration := l.nextGeneration + 1)
  }

  function Finished(l: Loader, generation: nat, rows: Rows): Loader {
    if generation < l.appliedGeneration then l
    else l.(appliedGeneration := generation, registry := Build(rows))
  }

  class RegistryStore {
    var nextGeneration: nat
    var appliedGeneration: nat
    var registry: Registry

    function Snapshot(): Loader
      reads this
    {
      Loader(nextGeneration, appliedGeneration, registry)
    }

    constructor ()
      ensures Snapshot() == Loader(0, 0, map[])
    {
      nextGeneration, appliedGeneration, registry := 0, 0, map[];
    }

    /** Up to the database query. */
    method BeginLoad() returns (generation: nat)
      modifies this
      ensures Snapshot() == Began(old(Snapshot())) && generation == nextGeneration
    {
      nextGeneration := nextGeneration + 1;
      generation := nextGeneration;
    }

    /** From the rows the query answered. */
    method FinishLoad(generation: nat, rows: Rows)
      modifies this
      ensures Snapshot() == Finished(old(Snapshot()), generation, rows)
    {
      var next: Registry := map[];
      for i := 0 to |rows|
        invariant next == Build(rows[..i])
        invariant Snapshot() == old(Snapshot())
      {
        assert rows[..i + 1][..i] == rows[..i];
        var server := JoinResourceServer(rows[i]);
        if server.Some? { next := next[server.value.identifier := server.value]; }
      }
      assert rows[..|rows|] == rows;
      if generation < appliedGeneration { return; }
      appliedGeneration := generation;
      registry := next;
    }
  }

  // ---------------------------------------------------------------- what the registry holds

  /** The row at `j` is registered, and no later one under its identifier is. */
  predicate LastOf(rows: Rows, j: nat, identifier: string) {
    && j < |rows| && Join(rows[j]).Some? && rows[j].identifier == identifier
    && forall k :: j < k < |rows| && rows[k].identifier == identifier ==> Join(rows[k]).None?
  }

  /** The registry built from some rows holds, under its own identifier, the entry of every row that
      has one, and nothing else. */
  lemma {:induction false} WhatARegistryHolds(rows: Rows, identifier: string)
    ensures identifier in Build(rows) <==> exists j: nat :: LastOf(rows, j, identifier)
    ensures forall j: nat :: LastOf(rows, j, identifier) ==> identifier in Build(rows) && Build(rows)[identifier] == Join(rows[j]).value
  {
    if rows != [] {
      hide Join;
      var front, last := rows[..|rows| - 1], rows[|rows| - 1];
      WhatARegistryHolds(front, identifier);
      EntryOfRow(last);
      if Join(last).Some? && last.identifier == identifier {
        assert LastOf(rows, |rows| - 1, identifier);
        assert forall j: nat :: LastOf(rows, j, identifier) ==> j == |rows| - 1;
      } else {
        forall j: nat ensures LastOf(rows, j, identifier) <==> LastOf(front, j, identifier) {
          assert forall k :: 0 <= k < |front| ==> rows[k] == front[k];
        }
      }
    }
  }

  // ---------------------------------------------------------------- many loads at once

  /** A load in flight: the database version when it started, and the one it has read. */
  datatype Load = Load(start: nat, read: Option<nat>)

  /** `versions` are the committed states of the table, oldest first. `starts` and `readAt` (the
      versions at which each load that ever ran started and which it read) and `shown` (the
      version the registry was built from) are history. */
  datatype Loads = Loads(
    versions: seq<Rows>, loader: Loader, active: map<nat, Load>, starts: map<nat, nat>, readAt: map<nat, nat>, shown: nat)

  datatype LoadStep = Commit(rows: Rows) | Start | Read(generation: nat) | Succeed(generation: nat) | Fail(generation: nat)

  function Current(w: Loads): nat
    requires w.versions != []
  {
    |w.versions| - 1
  }

  function ApplyLoad(w: Loads, step: LoadStep): (w': Loads)
    requires w.versions != []
    ensures w'.versions != []
  {
    match step
    case Commit(rows) => w.(versions := w.versions + [rows])
    case Start =>
      var g := w.loader.nextGeneration + 1;
      w.(loader := Began(w.loader), active := w.active[g := Load(Current(w), None)], starts := w.starts[g := Current(w)])
    case Read(g) =>
      if g !in w.active || w.active[g].read.Some? then w
      else w.(active := w.active[g := w.active[g].(read := Some(Current(w)))], readAt := w.readAt[g := Current(w)])
    case Succeed(g) =>
      if g !in w.active || w.active[g].read.None? || w.active[g].read.value >= |w.versions| then w
      else
        var r := w.active[g].read.value;
        w.(active := w.active - {g},
           loader := Finished(w.loader, g, w.versions[r]),
           shown := if g < w.loader.appliedGeneration then w.shown else r)
    case Fail(g) => w.(active := w.active - {g})
  }

  /** Before the first load the registry is empty and counts as the first version, which a
      process starts from with an empty table. */
  ghost predicate LoadInv(w: Loads) {
    && w.versions != [] && w.shown < |w.versions|
    && w.loader.registry == Build(w.versions[w.shown])
    && StartsInOrder(w) && ReadsKnown(w)
    && (w.loader.appliedGeneration in w.starts ==> w.starts[w.loader.appliedGeneration] <= w.shown)
  }

  ghost predicate StartsInOrder(w: Loads) {
    && w.loader.appliedGeneration <= w.loader.nextGeneration && 0 !in w.starts
    && (forall g :: g in w.starts ==> g <= w.loader.nextGeneration && w.starts[g] < |w.versions|)
    && (forall g, h :: g in w.starts && h in w.starts && g <= h ==> w.starts[g] <= w.starts[h])
    && (forall g :: g in w.active ==> g in w.starts && w.active[g].start == w.starts[g] && ReadOk(w, w.active[g]))
  }

  ghost predicate ReadsKnown(w: Loads) {
    && (forall g :: g in w.active ==> w.active[g].read == if g in w.readAt then Some(w.readAt[g]) else None)
    && (forall g :: g in w.readAt ==> g in w.starts && w.readAt[g] < |w.versions|)
    && (if w.loader.appliedGeneration > 0 then w.loader.appliedGeneration in w.readAt && w.readAt[w.loader.appliedGeneration] == w.shown else w.shown == 0)
  }

  predicate ReadOk(w: Loads, l: Load) {
    l.read.Some? ==> l.start <= l.read.value < |w.versions|
  }

  lemma StepKeepsLoads(w: Loads, step: LoadStep)
    requires LoadInv(w)
    ensures LoadInv(ApplyLoad(w, step))
  {
    hide Build;
    StepKeepsStarts(w, step);
    StepKeepsReads(w, step);
    hide StartsInOrder;
  }

  lemma StepKeepsStarts(w: Loads, step: LoadStep)
    requires w.versions != [] && StartsInOrder(w)
    ensures StartsInOrder(ApplyLoad(w, step))
  {
    hide Build;
  }

  lemma StepKeepsReads(w: Loads, step: LoadStep)
    requires LoadInv(w)
    ensures ReadsKnown(ApplyLoad(w, step))
  {
    hide Build;
  }

  function LoadsAt(w: Loads, run: seq<LoadStep>, n: nat): (w': Loads)
    requires w.versions != [] && n <= |run|
    ensures w'.versions != []
  {
    if n == 0 then w else ApplyLoad(LoadsAt(w, run, n - 1), run[n - 1])
  }

  lemma {:induction false} RunKeepsLoads(w: Loads, run: seq<LoadStep>, n: nat)
    requires LoadInv(w) && n <= |run|
    ensures LoadInv(LoadsAt(w, run, n))
  {
    if n > 0 {
      RunKeepsLoads(w, run, n - 1);
      StepKeepsLoads(LoadsAt(w, run, n - 1), run[n - 1]);
    }
  }

  /** The registry shows version `v` or a later one, and will go on doing so. */
  ghost predicate Reflects(w: Loads, v: nat)
    requires w.versions != []
  {
    && v <= w.shown < |w.versions| && w.loader.registry == Build(w.versions[w.shown])
    && w.loader.appliedGeneration in w.starts && v <= w.starts[w.loader.appliedGeneration]
  }

  lemma StepKeepsReflects(w: Loads, step: LoadStep, v: nat)
    requires LoadInv(w) && Reflects(w, v)
    ensures Reflects(ApplyLoad(w, step), v)
  {
    hide Build;
  }

  /** The load finishes successfully. */
  predicate Succeeds(w: Loads, step: LoadStep, g: nat) {
    step == Succeed(g) && g in w.active && w.active[g].read.Some?
  }

  lemma SuccessReflects(w: Loads, step: LoadStep, g: nat)
    requires LoadInv(w) && Succeeds(w, step, g)
    ensures Reflects(ApplyLoad(w, step), w.starts[g])
  {
    hide Build;
  }

  /** Once a load that started at version `v` has finished successfully, the registry is that
      of version `v` or a later one in every later state. */
  lemma {:induction false} FreshnessBound(w: Loads, run: seq<LoadStep>, i: nat, n: nat, g: nat)
    requires LoadInv(w) && i < n <= |run| && Succeeds(LoadsAt(w, run, i), run[i], g)
    ensures g in LoadsAt(w, run, i).starts && Reflects(LoadsAt(w, run, n), LoadsAt(w, run, i).starts[g])
  {
    hide Build, ApplyLoad, Reflects;
    RunKeepsLoads(w, run, n - 1);
    if i == n - 1 {
      SuccessReflects(LoadsAt(w, run, i), run[i], g);
    } else {
      FreshnessBound(w, run, i, n - 1, g);
      StepKeepsReflects(LoadsAt(w, run, n - 1), run[n - 1], LoadsAt(w, run, i).starts[g]);
    }
  }

  /** The bound is the start and not what was read: two loads that read in the opposite order
      take the registry back to an older version. */
  lemma RegistryCanGoBack(old': Rows, new': Rows) returns (w: Loads, run: seq<LoadStep>)
    ensures LoadInv(w) && |run| == 7
    ensures LoadsAt(w, run, 6).loader.registry == Build(new') && LoadsAt(w, run, 7).loader.registry == Build(old')
  {
    w := Loads([old'], Loader(0, 0, Build(old')), map[], map[], map[], 0);
    run := [Start, Start, Read(2), Commit(new'), Read(1), Succeed(1), Succeed(2)];
    hide Build;
    SevenSteps(w, run);
    hide LoadsAt;
    TwoStarts(w);
    var w2 := ApplyLoad(ApplyLoad(w, Start), Start);
    CrossedReads(w2, old', new');
    hide LoadInv;
  }

  lemma TwoStarts(w: Loads)
    requires |w.versions| == 1 && w.active == map[] && w.loader.nextGeneration == 0
    ensures var w2 := ApplyLoad(ApplyLoad(w, Start), Start);
      w2.versions == w.versions && w2.active == map[1 := Load(0, None), 2 := Load(0, None)] && w2.loader == w.loader.(nextGeneration := 2)
  {
  }

  lemma CrossedReads(w: Loads, old': Rows, new': Rows)
    requires w.versions == [old'] && w.active == map[1 := Load(0, None), 2 := Load(0, None)] && w.loader.appliedGeneration == 0
    ensures var w5 := ApplyLoad(ApplyLoad(ApplyLoad(w, Read(2)), Commit(new')), Read(1));
      ApplyLoad(w5, Succeed(1)).loader.registry == Build(new') && ApplyLoad(ApplyLoad(w5, Succeed(1)), Succeed(2)).loader.registry == Build(old')
  {
    hide Build;
    var w5 := ApplyLoad(ApplyLoad(ApplyLoad(w, Read(2)), Commit(new')), Read(1));
    assert w5.versions == [old', new'] && w5.active == map[1 := Load(0, Some(1)), 2 := Load(0, Some(0))];
  }

  lemma SevenSteps(w: Loads, run: seq<LoadStep>)
    requires w.versions != [] && |run| == 7
    ensures var w5 := ApplyLoad(ApplyLoad(ApplyLoad(ApplyLoad(ApplyLoad(w, run[0]), run[1]), run[2]), run[3]), run[4]);
      LoadsAt(w, run, 6) == ApplyLoad(w5, run[5]) && LoadsAt(w, run, 7) == ApplyLoad(ApplyLoad(w5, run[5]), run[6])
  {
    hide ApplyLoad;
    assert LoadsAt(w, run, 1) == ApplyLoad(w, run[0]);
    assert LoadsAt(w, run, 3) == ApplyLoad(LoadsAt(w, run, 2), run[2]);
    assert LoadsAt(w, run, 5) == ApplyLoad(LoadsAt(w, run, 4), run[4]);
  }

  /** The load with generation `g` overtakes the one the registry was built from: it was started
      later, but had read an older version. */
  predicate Overtakes(w: Loads, g: nat) {
    var a := w.loader.appliedGeneration;
    a in w.readAt && g in w.readAt && a <= g && w.readAt[g] < w.readAt[a]
  }

  /** A successful load takes the registry back exactly when it overtakes the one the registry
      was built from. That takes two loads that overlap: the later one started and read before
      the earlier one read. One that starts once the earlier one has read never does. */
  lemma WhenTheRegistryGoesBack(w: Loads, g: nat)
    requires LoadInv(w) && g in w.active && w.active[g].read.Some?
    ensures ApplyLoad(w, Succeed(g)).shown < w.shown <==> Overtakes(w, g)
    ensures var a := w.loader.appliedGeneration;
      Overtakes(w, g) ==> a in w.starts && g in w.starts && w.starts[a] <= w.starts[g] <= w.readAt[g] < w.readAt[a]
  {
    assert g in w.starts;
    hide Build;
  }

  /** Loads read in the order in which they started. */
  ghost predicate ReadInOrder(w: Loads) {
    && (forall g, h :: g in w.readAt && h in w.readAt && g <= h ==> w.readAt[g] <= w.readAt[h])
    && (forall g, h :: g in w.active && w.active[g].read.None? && h in w.readAt ==> h <= g)
  }

  /** The step starts no load while another one has still to read. */
  predicate Serial(w: Loads, step: LoadStep) {
    step.Start? ==> forall g :: g in w.active ==> w.active[g].read.Some?
  }

  lemma SerialStep(w: Loads, step: LoadStep)
    requires LoadInv(w) && ReadInOrder(w) && AtMostOneUnread(w) && Serial(w, step)
    ensures ReadInOrder(ApplyLoad(w, step)) && AtMostOneUnread(ApplyLoad(w, step)) && ApplyLoad(w, step).shown >= w.shown
  {
    hide Build;
  }

  ghost predicate AtMostOneUnread(w: Loads) {
    forall g, h :: g in w.active && h in w.active && w.active[g].read.None? && w.active[h].read.None? ==> g == h
  }

  /** So where loads start one after another's read, the contents never go back. */
  lemma {:induction false} SerialLoadsNeverGoBack(w: Loads, run: seq<LoadStep>, i: nat, n: nat)
    requires w.versions != [] && LoadInv(w) && w.active == map[] && w.readAt == map[] && i <= n <= |run| && SerialRun(w, run)
    ensures ReadInOrder(LoadsAt(w, run, n)) && AtMostOneUnread(LoadsAt(w, run, n))
    ensures LoadsAt(w, run, i).shown <= LoadsAt(w, run, n).shown
  {
    hide ApplyLoad, LoadInv, Serial, ReadInOrder, AtMostOneUnread, SerialRun;
    if n > 0 {
      SerialLoadsNeverGoBack(w, run, if i < n then i else n - 1, n - 1);
      RunKeepsLoads(w, run, n - 1);
      SerialAt(w, run, n - 1);
      SerialStep(LoadsAt(w, run, n - 1), run[n - 1]);
    } else {
      NothingRead(w);
    }
  }

  ghost predicate SerialRun(w: Loads, run: seq<LoadStep>)
    requires w.versions != []
  {
    forall k: nat :: k < |run| ==> Serial(LoadsAt(w, run, k), run[k])
  }

  lemma SerialAt(w: Loads, run: seq<LoadStep>, k: nat)
    requires w.versions != [] && SerialRun(w, run) && k < |run|
    ensures Serial(LoadsAt(w, run, k), run[k])
  {
  }

  lemma NothingRead(w: Loads)
    requires w.active == map[] && w.readAt == map[]
    ensures ReadInOrder(w) && AtMostOneUnread(w)
  {
  }
}
