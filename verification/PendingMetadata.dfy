/** One resource-server row under refreshes and accepts (service.ts). Both hold the row lock
    for their whole transaction, so each is one step; a refresh read the clock before it
    fetched, so the time it stamps may be older than the row's. */
module PendingMetadata {
  import opened Basics
  import opened Metadata
  import opened Fingerprint
  import opened RegistryJoin

  datatype Row = Row(
    metadata: ResourceMetadata,
    pending: Option<ResourceMetadata>,
    pendingSince: Option<Time>,
    fetchedAt: Time,
    metadataExpiresAt: Time,
    lastFetchError: Option<string>,
    lastFetchAttemptAt: Time)

  /** A fetch that ended, begun at `now`; or an accept that quotes a fingerprint. */
  datatype Event =
    | Fetched(candidate: ResourceMetadata, expiresAt: Time, now: Time)
    | FetchFailed(message: string, now: Time)
    | Accept(fingerprint: View)

  predicate Widens(inForce: ResourceMetadata, candidate: ResourceMetadata) {
    Changes(inForce.scopes, candidate.scopes) != []
  }

  /** Both are waiting, under one fingerprint. */
  predicate SamePending(a: Option<ResourceMetadata>, b: Option<ResourceMetadata>) {
    a.Some? && b.Some? && Canonical(a.value) == Canonical(b.value)
  }

  function AfterFetch(row: Row, candidate: ResourceMetadata, expiresAt: Time, now: Time): Row {
    if Widens(row.metadata, candidate) then
      Row(Merge(row.metadata, candidate), Some(candidate),
          if SamePending(row.pending, Some(candidate)) then row.pendingSince else Some(now),
          now, expiresAt, None, now)
    else
      Row(candidate, None, None, now, expiresAt, None, now)
  }

  predicate Acceptable(row: Row, fingerprint: View) {
    row.pending.Some? && Canonical(row.pending.value) == fingerprint
  }

  function After(row: Row, e: Event): Row {
    match e
    case Fetched(candidate, expiresAt, now) => AfterFetch(row, candidate, expiresAt, now)
    case FetchFailed(message, now) => row.(lastFetchError := Some(message), lastFetchAttemptAt := now)
    case Accept(fingerprint) =>
      if !Acceptable(row, fingerprint) then row else row.(metadata := row.pending.value, pending := None, pendingSince := None)
  }

  /** Validation lets only well-formed documents through. */
  ghost predicate Valid(e: Event) {
    e.Fetched? ==> WellFormed(e.candidate)
  }

  ghost predicate ValidRun(run: seq<Event>) {
    forall e :: e in run ==> Valid(e)
  }

  function At(row: Row, run: seq<Event>, n: nat): Row
    requires n <= |run|
  {
    if n == 0 then row else After(At(row, run, n - 1), run[n - 1])
  }

  // ---------------------------------------------------------------- the row in the database

  datatype AcceptOutcome = NothingPending | ChangedSinceReview | Accepted(inForce: ResourceMetadata)

  class ServerRow {
    var metadata: ResourceMetadata
    var pending: Option<ResourceMetadata>
    var pendingSince: Option<Time>
    var fetchedAt: Time
    var metadataExpiresAt: Time
    var lastFetchError: Option<string>
    var lastFetchAttemptAt: Time

    function Snapshot(): Row
      reads this
    {
      Row(metadata, pending, pendingSince, fetchedAt, metadataExpiresAt, lastFetchError, lastFetchAttemptAt)
    }

    /** approveResourceServer: the first document is in force at once. */
    constructor (document: ResourceMetadata, expiresAt: Time, now: Time)
      ensures Snapshot() == Row(document, None, None, now, expiresAt, None, now)
    {
      metadata, pending, pendingSince := document, None, None;
      fetchedAt, metadataExpiresAt, lastFetchError, lastFetchAttemptAt := now, expiresAt, None, now;
    }

    /** The transaction of refreshMetadata. */
    method StoreFetched(candidate: ResourceMetadata, expiresAt: Time, now: Time) returns (newPending: bool)
      modifies this
      ensures Snapshot() == After(old(Snapshot()), Fetched(candidate, expiresAt, now))
      ensures newPending <==> pending.Some? && !SamePending(old(pending), pending)
    {
      var changes := PendingChanges(Some(metadata), candidate);
      var widening := |changes| > 0;
      var stored := candidate;
      if widening { stored := MergeMetadata(metadata, candidate); }
      var pendingUnchanged := pending.Some? && Canonical(pending.value) == Canonical(candidate);
      newPending := widening && !pendingUnchanged;
      metadata := stored;
      pendingSince := if widening then (if pendingUnchanged then pendingSince else Some(now)) else None;
      pending := if widening then Some(candidate) else None;
      fetchedAt, metadataExpiresAt, lastFetchError, lastFetchAttemptAt := now, expiresAt, None, now;
    }

    method RecordFailure(message: string, now: Time)
      modifies this
      ensures Snapshot() == After(old(Snapshot()), FetchFailed(message, now))
    {
      lastFetchError, lastFetchAttemptAt := Some(message), now;
    }

    /** The transaction of acceptPendingMetadata. */
    method AcceptPending(fingerprint: View) returns (r: AcceptOutcome)
      modifies this
      ensures Snapshot() == After(old(Snapshot()), Accept(fingerprint))
      ensures r.Accepted? <==> Acceptable(old(Snapshot()), fingerprint)
      ensures r.Accepted? ==> metadata == r.inForce && Canonical(metadata) == fingerprint && pending.None?
      ensures !r.Accepted? ==> Snapshot() == old(Snapshot())
    {
      if pending.None? { return NothingPending; }
      if Canonical(pending.value) != fingerprint { return ChangedSinceReview; }
      metadata, pending, pendingSince := pending.value, None, None;
      r := Accepted(metadata);
    }
  }

  // ---------------------------------------------------------------- pending means widening

  /** A document waits exactly together with its clock, and only one that widens. */
  ghost predicate Inv(row: Row) {
    && WellFormed(row.metadata)
    && (row.pending.Some? ==> WellFormed(row.pending.value) && Widens(row.metadata, row.pending.value))
    && (row.pendingSince.Some? <==> row.pending.Some?)
  }

  lemma StepKeepsInv(row: Row, e: Event)
    requires Inv(row) && Valid(e)
    ensures Inv(After(row, e))
  {
    if e.Fetched? && Widens(row.metadata, e.candidate) {
      MergeIsWellFormed(row.metadata, e.candidate);
      MergeKeepsChanges(row.metadata, e.candidate);
    }
  }

  lemma {:induction false} RunKeepsInv(row: Row, run: seq<Event>, n: nat)
    requires Inv(row) && ValidRun(run) && n <= |run|
    ensures Inv(At(row, run, n))
  {
    if n > 0 {
      RunKeepsInv(row, run, n - 1);
      StepKeepsInv(At(row, run, n - 1), run[n - 1]);
    }
  }

  /** The admin page's view of a pending document. */
  datatype PendingView = PendingView(since: Option<Time>, fingerprint: View, changes: seq<PendingChange>)

  function PendingOf(row: Row): Option<PendingView> {
    if row.pending.None? then None
    else
      var changes := Changes(row.metadata.scopes, row.pending.value.scopes);
      if changes == [] then None else Some(PendingView(row.pendingSince, Canonical(row.pending.value), changes))
  }

  /** The operator sees a pending document exactly when one is stored; it always has a clock
      and a change to show, and right after a fetch the changes are those over the document
      that was in force before it. */
  lemma PendingIsShown(row: Row, run: seq<Event>, n: nat)
    requires Inv(row) && ValidRun(run) && n <= |run|
    ensures PendingOf(At(row, run, n)).Some? <==> At(row, run, n).pending.Some?
    ensures PendingOf(At(row, run, n)).Some? ==> PendingOf(At(row, run, n)).value.since.Some?
    ensures n > 0 && run[n - 1].Fetched? ==>
      var before, shown := At(row, run, n - 1).metadata, PendingOf(At(row, run, n));
      && (shown.Some? <==> Widens(before, run[n - 1].candidate))
      && (shown.Some? ==> shown.value.changes == Changes(before.scopes, run[n - 1].candidate.scopes))
  {
    RunKeepsInv(row, run, n);
    if n > 0 && run[n - 1].Fetched? {
      RunKeepsInv(row, run, n - 1);
      assert Valid(run[n - 1]);
      MergeKeepsChanges(At(row, run, n - 1).metadata, run[n - 1].candidate);
    }
  }

  // ---------------------------------------------------------------- the clock

  /** The states `k..n` all wait under the fingerprint of state `n`, and state `k - 1` does
      not: `k` is where the current stretch began. */
  ghost predicate StretchStart(row: Row, run: seq<Event>, k: nat, n: nat) {
    && 0 < k <= n <= |run|
    && (forall i :: k <= i <= n ==> SamePending(At(row, run, i).pending, At(row, run, n).pending))
    && !SamePending(At(row, run, k - 1).pending, At(row, run, n).pending)
  }

  lemma ShorterStretch(row: Row, run: seq<Event>, k: nat, n: nat)
    requires StretchStart(row, run, k, n) && k < n
    ensures StretchStart(row, run, k, n - 1) && SamePending(At(row, run, n - 1).pending, At(row, run, n).pending)
  {
    hide At;
    var before := At(row, run, n - 1).pending;
    assert SamePending(before, At(row, run, n).pending);
    forall i | k <= i <= n - 1 ensures SamePending(At(row, run, i).pending, before) {
      assert SamePending(At(row, run, i).pending, At(row, run, n).pending);
    }
  }

  lemma ClockStep(row: Row, e: Event)
    ensures After(row, e).pending.Some? && !SamePending(row.pending, After(row, e).pending) ==>
      e.Fetched? && After(row, e).pendingSince == Some(e.now)
    ensures SamePending(row.pending, After(row, e).pending) ==> After(row, e).pendingSince == row.pendingSince
  {
  }

  /** pendingSince is the time stamped by the fetch that began the current unbroken stretch of
      equal fingerprints. */
  lemma {:induction false} PendingSinceIsStretchStart(row: Row, run: seq<Event>, k: nat, n: nat)
    requires StretchStart(row, run, k, n)
    ensures run[k - 1].Fetched? && At(row, run, n).pendingSince == Some(run[k - 1].now)
  {
    hide After;
    ClockStep(At(row, run, n - 1), run[n - 1]);
    if k < n {
      ShorterStretch(row, run, k, n);
      PendingSinceIsStretchStart(row, run, k, n - 1);
    } else {
      assert SamePending(At(row, run, k).pending, At(row, run, n).pending);
    }
  }

  /** Every waiting document has such a start. */
  lemma StretchHasStart(row: Row, run: seq<Event>, n: nat) returns (k: nat)
    requires row.pending.None? && n <= |run| && At(row, run, n).pending.Some?
    ensures StretchStart(row, run, k, n)
  {
    hide After, Canonical;
    k := n;
    while SamePending(At(row, run, k - 1).pending, At(row, run, n).pending)
      invariant 0 < k <= n
      invariant forall i :: k <= i <= n ==> SamePending(At(row, run, i).pending, At(row, run, n).pending)
      decreases k
    {
      k := k - 1;
    }
  }

  // ---------------------------------------------------------------- what an accept accepts

  lemma MergeOfSame(a: seq<DeclaredScope>, c: seq<DeclaredScope>, d: seq<DeclaredScope>)
    requires UniqueNames(c) && UniqueNames(d) && forall s :: s in c <==> s in d
    ensures MergeScopes(a, c) == MergeScopes(a, d)
  {
    if a != [] {
      MergeOfSame(a[..|a| - 1], c, d);
      var name := a[|a| - 1].name;
      if Lookup(c, name).Some? { LookupUnique(d, Lookup(c, name).value); }
      if Lookup(d, name).Some? { LookupUnique(c, Lookup(d, name).value); }
    }
  }

  /** Another fetch within a stretch leaves the document in force as it is. */
  lemma StretchStep(row: Row, e: Event)
    requires Inv(row) && Valid(e) && SamePending(row.pending, After(row, e).pending)
    requires Merge(row.metadata, row.pending.value) == row.metadata
    ensures After(row, e).metadata == row.metadata
    ensures Merge(row.metadata, After(row, e).pending.value) == row.metadata
  {
    var a, b := row.pending.value, After(row, e).pending.value;
    StepKeepsInv(row, e);
    FingerprintsAgree(a, b);
    MergeOfSame(row.metadata.scopes, a.scopes, b.scopes);
  }

  /** From review to accept: as long as the stretch goes on, the document in force is the one
      the operator compared with, and the pending one has the same name and scopes. */
  lemma {:induction false} ReviewStaysCurrent(row: Row, run: seq<Event>, k: nat, i: nat, n: nat)
    requires Inv(row) && ValidRun(run) && StretchStart(row, run, k, n) && k <= i <= n
    ensures At(row, run, i).metadata == At(row, run, n).metadata
    ensures Merge(At(row, run, n).metadata, At(row, run, n).pending.value) == At(row, run, n).metadata
    decreases n
  {
    hide After, Merge, Canonical, Inv;
    RunKeepsInv(row, run, n - 1);
    assert Valid(run[n - 1]);
    assert SamePending(At(row, run, k).pending, At(row, run, n).pending);
    if k == n {
      StretchOpens(At(row, run, n - 1), run[n - 1]);
    } else {
      ShorterStretch(row, run, k, n);
      ReviewStaysCurrent(row, run, k, if i < n then i else n - 1, n - 1);
      StretchStep(At(row, run, n - 1), run[n - 1]);
    }
  }

  lemma StretchOpens(row: Row, e: Event)
    requires After(row, e).pending.Some? && !SamePending(row.pending, After(row, e).pending)
    ensures Merge(After(row, e).metadata, After(row, e).pending.value) == After(row, e).metadata
  {
    MergeTwice(row.metadata, e.candidate);
  }

  /** Across a break the fingerprint alone does not fix what an accept adds: the candidate may
      come back after another one withdrew a scope, and accepting it then restores that scope
      although the reviewed list did not name it. */
  lemma ReviewCanGoStale() returns (row: Row, run: seq<Event>, n: nat)
    ensures Inv(row) && ValidRun(run) && 0 < n < |run|
    ensures PendingOf(At(row, run, n)).Some? && PendingOf(At(row, run, |run|)).Some?
    ensures PendingOf(At(row, run, n)).value.fingerprint == PendingOf(At(row, run, |run|)).value.fingerprint
    ensures PendingOf(At(row, run, n)).value.changes != PendingOf(At(row, run, |run|)).value.changes
  {
    var a := DeclaredScope("a", "A", false, false, false);
    var x := DeclaredScope("x", "X", false, false, false);
    var approved := ResourceMetadata("https://r.example", None, [a], [], true);
    var wide, other := approved.(scopes := [x, a]), approved.(scopes := [x]);
    row := Row(approved, None, None, 0, 0, None, 0);
    run := [Fetched(wide, 0, 0), Fetched(other, 0, 0), Fetched(wide, 0, 0)];
    n := 1;
    TwoScopes(a, x);
    RunOfThree(row, run);
    hide At, After, Changes, MergeScopes, Canonical, Lookup;
    var first := After(row, run[0]);
    FetchWidens(row, wide);
    MergedRest(approved, wide);
    var second := After(first, run[1]);
    FetchWidens(first, other);
    FetchWidens(second, wide);
  }

  lemma FetchWidens(row: Row, c: ResourceMetadata)
    requires Changes(row.metadata.scopes, c.scopes) != []
    ensures var after := After(row, Fetched(c, 0, 0));
      after.pending == Some(c) && after.metadata == Merge(row.metadata, c) && after.metadata.scopes == MergeScopes(row.metadata.scopes, c.scopes)
  {
  }

  lemma MergedRest(a: ResourceMetadata, c: ResourceMetadata)
    requires MergeScopes(a.scopes, c.scopes) == a.scopes && a.scopesSupported == []
    ensures Merge(a, c) == a
  {
  }

  lemma RunOfThree(row: Row, run: seq<Event>)
    requires |run| == 3
    ensures At(row, run, 1) == After(row, run[0])
    ensures At(row, run, 2) == After(After(row, run[0]), run[1])
    ensures At(row, run, 3) == After(After(After(row, run[0]), run[1]), run[2])
  {
    hide After;
    assert At(row, run, 1) == After(At(row, run, 0), run[0]);
  }

  lemma ChangesAppend(inForce: seq<DeclaredScope>, c: seq<DeclaredScope>, s: DeclaredScope)
    ensures Changes(inForce, c + [s]) == Changes(inForce, c) + ScopeChanges(Lookup(inForce, s.name), s)
  {
    assert (c + [s])[..|c|] == c;
  }

  lemma TwoScopes(a: DeclaredScope, x: DeclaredScope)
    requires a.name != x.name
    ensures MergeScopes([a], [x, a]) == [a] && MergeScopes([a], [x]) == [] && MergeScopes([], [x, a]) == []
    ensures |Changes([a], [x, a])| == 1 && |Changes([a], [x])| == 1 && |Changes([], [x, a])| == 2
  {
    assert [] + [x] == [x] && [x] + [a] == [x, a] && [] + [a] == [a] && MergeScope(a, a) == a;
    FewLookups(a, x);
    hide Lookup;
    MergeAppend([], a, [x, a]);
    MergeAppend([], a, [x]);
    ChangesAppend([a], [], x);
    ChangesAppend([a], [x], a);
    ChangesAppend([], [], x);
    ChangesAppend([], [x], a);
    hide Changes, MergeScopes;
    assert |ScopeChanges(Some(a), a)| == 0 && |ScopeChanges(None, a)| == 1 && |ScopeChanges(None, x)| == 1;
  }

  lemma FewLookups(a: DeclaredScope, x: DeclaredScope)
    requires a.name != x.name
    ensures Lookup([], a.name) == None && Lookup([], x.name) == None && Lookup([x], a.name) == None
    ensures Lookup([a], a.name) == Some(a) && Lookup([a], x.name) == None && Lookup([x, a], a.name) == Some(a)
  {
    assert [] + [x] == [x] && [x] + [a] == [x, a] && [] + [a] == [a];
    LookupAppend([], a, a.name);
    LookupAppend([], a, x.name);
    LookupAppend([], x, a.name);
    LookupAppend([x], a, a.name);
  }

  // ---------------------------------------------------------------- only an accept widens

  lemma FetchNarrows(row: Row, e: Event)
    requires Inv(row) && Valid(e) && (e.Accept? ==> !Acceptable(row, e.fingerprint))
    ensures NoWider(After(row, e).metadata.scopes, row.metadata.scopes)
  {
    StepKeepsInv(row, e);
    if e.Fetched? && Widens(row.metadata, e.candidate) {
      MergeIsMeet(row.metadata.scopes, e.candidate.scopes, MergeScopes(row.metadata.scopes, e.candidate.scopes));
      Reflexive(MergeScopes(row.metadata.scopes, e.candidate.scopes));
    } else if e.Fetched? {
      NoChangesIsNoWider(row.metadata.scopes, e.candidate.scopes);
    } else {
      Reflexive(row.metadata.scopes);
    }
  }

  lemma Reflexive(a: seq<DeclaredScope>)
    ensures NoWider(a, a)
  {
    forall s | s in a ensures Covered(s, a) {
      assert Within(s, s);
    }
  }

  /** No accept takes effect from step `i` up to state `n`. */
  ghost predicate NothingAccepted(row: Row, run: seq<Event>, i: nat, n: nat)
    requires n <= |run|
  {
    forall k :: i <= k < n && run[k].Accept? ==> !Acceptable(At(row, run, k), run[k].fingerprint)
  }

  /** Without an accept, whatever documents the server publishes and in whatever order the
      fetches end, what is in force only narrows. */
  lemma {:induction false} RefreshesOnlyNarrow(row: Row, run: seq<Event>, i: nat, n: nat)
    requires Inv(row) && ValidRun(run) && i <= n <= |run| && NothingAccepted(row, run, i, n)
    ensures NoWider(At(row, run, n).metadata.scopes, At(row, run, i).metadata.scopes)
  {
    hide After, NoWider, Canonical, Inv, Acceptable;
    if i == n {
      Reflexive(At(row, run, n).metadata.scopes);
    } else {
      RefreshesOnlyNarrow(row, run, i, n - 1);
      RunKeepsInv(row, run, n - 1);
      assert Valid(run[n - 1]);
      FetchNarrows(At(row, run, n - 1), run[n - 1]);
      NoWiderTransitive(At(row, run, n).metadata.scopes, At(row, run, n - 1).metadata.scopes, At(row, run, i).metadata.scopes);
    }
  }

  /** So under a fixed policy the registry entry of the server only tightens, and never
      appears or disappears for want of a document. */
  lemma RefreshesOnlyTighten(row: Row, run: seq<Event>, i: nat, n: nat, entry: RegistryRow)
    requires Inv(row) && ValidRun(run) && i <= n <= |run| && NothingAccepted(row, run, i, n)
    ensures var was := Join(entry.(metadata := Some(At(row, run, i).metadata)));
      var is' := Join(entry.(metadata := Some(At(row, run, n).metadata)));
      was.Some? ==> is'.Some? && Tighter(is'.value, was.value)
  {
    RefreshesOnlyNarrow(row, run, i, n);
    RunKeepsInv(row, run, i);
    RunKeepsInv(row, run, n);
    NarrowerJoinsTighter(entry, At(row, run, n).metadata, At(row, run, i).metadata);
  }

  /** Whatever is in force but is wider than an earlier document came with an accept in
      between, which quoted the fingerprint of a document at least as wide. */
  lemma {:induction false} OnlyAcceptWidens(row: Row, run: seq<Event>, i: nat, n: nat) returns (k: nat)
    requires Inv(row) && ValidRun(run) && i <= n <= |run|
    requires !NoWider(At(row, run, n).metadata.scopes, At(row, run, i).metadata.scopes)
    ensures i <= k < n && run[k].Accept? && Acceptable(At(row, run, k), run[k].fingerprint)
    ensures Canonical(At(row, run, k + 1).metadata) == run[k].fingerprint
    ensures NoWider(At(row, run, n).metadata.scopes, At(row, run, k + 1).metadata.scopes)
  {
    hide After, NoWider, Canonical, Inv, Acceptable;
    Reflexive(At(row, run, n).metadata.scopes);
    if !NoWider(At(row, run, n).metadata.scopes, At(row, run, n - 1).metadata.scopes) { StepWidens(row, run, n - 1); }
    var before := At(row, run, n - 1).metadata.scopes;
    if NoWider(At(row, run, n).metadata.scopes, before) {
      if NoWider(before, At(row, run, i).metadata.scopes) {
        NoWiderTransitive(At(row, run, n).metadata.scopes, before, At(row, run, i).metadata.scopes);
      }
      k := OnlyAcceptWidens(row, run, i, n - 1);
      NoWiderTransitive(At(row, run, n).metadata.scopes, before, At(row, run, k + 1).metadata.scopes);
    } else {
      k := n - 1;
    }
  }

  lemma StepWidens(row: Row, run: seq<Event>, n: nat)
    requires Inv(row) && ValidRun(run) && n < |run|
    requires !NoWider(At(row, run, n + 1).metadata.scopes, At(row, run, n).metadata.scopes)
    ensures run[n].Accept? && Acceptable(At(row, run, n), run[n].fingerprint)
    ensures Canonical(At(row, run, n + 1).metadata) == run[n].fingerprint
  {
    hide NoWider, Canonical;
    RunKeepsInv(row, run, n);
    assert Valid(run[n]);
    if !run[n].Accept? || !Acceptable(At(row, run, n), run[n].fingerprint) {
      FetchNarrows(At(row, run, n), run[n]);
    }
  }
}
