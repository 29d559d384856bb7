/** How long a review of a pending document stays valid: when the changes an accept makes are
    those the operator was shown, although refreshes ran in between. */
module PendingReview {
  import opened Basics
  import opened Metadata
  import opened Fingerprint
  import opened PendingMetadata

  // ---------------------------------------------------------------- the list as a set

  lemma {:induction false} ChangesMember(a: seq<DeclaredScope>, d: seq<DeclaredScope>, x: PendingChange)
    ensures x in Changes(a, d) <==> exists c :: c in d && x in ScopeChanges(Lookup(a, c.name), c)
  {
    if d != [] {
      var front, last := d[..|d| - 1], d[|d| - 1];
      assert d == front + [last];
      ChangesMember(a, front, x);
      hide ScopeChanges, Lookup;
    }
  }

  /** Both lists name the same changes. */
  ghost predicate SameChanges(a: seq<PendingChange>, b: seq<PendingChange>) {
    forall x :: x in a <==> x in b
  }

  lemma CandidateOrderDoesNotMatter(a: seq<DeclaredScope>, p: seq<DeclaredScope>, q: seq<DeclaredScope>)
    requires forall s :: s in p <==> s in q
    ensures SameChanges(Changes(a, p), Changes(a, q))
  {
    forall x ensures x in Changes(a, p) <==> x in Changes(a, q) {
      ChangesMember(a, p, x);
      ChangesMember(a, q, x);
    }
  }

  predicate HasFlag(s: DeclaredScope, flag: ScopeFlag) {
    match flag
    case StepUp => s.stepUp
    case ShortLived => s.shortLived
    case FreshSignIn => s.freshSignIn
  }

  lemma ScopeChangesMembers(was: Option<DeclaredScope>, c: DeclaredScope, flag: ScopeFlag)
    ensures forall x :: x in ScopeChanges(was, c) ==> x.scope == c.name && (x.NewScope? ==> was.None?)
    ensures FlagRemoved(c.name, flag) in ScopeChanges(was, c) <==> was.Some? && HasFlag(was.value, flag) && !HasFlag(c, flag)
    ensures was.None? ==> NewScope(c.name, c.description, c.stepUp, c.shortLived, c.freshSignIn) in ScopeChanges(was, c)
  {
  }

  // ---------------------------------------------------------------- lost scopes show

  /** Where merging `p` changes nothing, `p` has each scope and no flag that it lacks. */
  lemma FixedByCandidate(m: seq<DeclaredScope>, p: seq<DeclaredScope>, s: DeclaredScope)
    requires UniqueNames(m) && MergeScopes(m, p) == m && s in m
    ensures Lookup(p, s.name).Some? && MergeScope(s, Lookup(p, s.name).value) == s
  {
    MergeScopesMembers(m, p, s);
    var t :| t in m && Lookup(p, t.name).Some? && s == MergeScope(t, Lookup(p, t.name).value);
    LookupUnique(m, s);
    LookupUnique(m, t);
  }

  /** The change of `p`'s scope `c` is listed over `n` and not over `m`. */
  lemma OnlyOverN(m: seq<DeclaredScope>, n: seq<DeclaredScope>, p: seq<DeclaredScope>, c: DeclaredScope, x: PendingChange)
    requires UniqueNames(p) && c in p && x.scope == c.name
    requires x in ScopeChanges(Lookup(n, c.name), c) && x !in ScopeChanges(Lookup(m, c.name), c)
    ensures x in Changes(n, p) && x !in Changes(m, p)
  {
    ChangesMember(n, p, x);
    ChangesMember(m, p, x);
    if d :| d in p && x in ScopeChanges(Lookup(m, d.name), d) {
      ScopeChangesMembers(Lookup(m, d.name), d, StepUp);
      LookupUnique(p, c);
      LookupUnique(p, d);
    }
  }

  /** A scope that was in force and no longer is, as it was, adds a change to the list. */
  lemma LostScopeShows(m: seq<DeclaredScope>, n: seq<DeclaredScope>, p: seq<DeclaredScope>, s: DeclaredScope)
    requires UniqueNames(m) && UniqueNames(n) && UniqueNames(p) && MergeScopes(m, p) == m && NoWider(n, m)
    requires s in m && s !in n
    ensures !SameChanges(Changes(m, p), Changes(n, p))
  {
    FixedByCandidate(m, p, s);
    LookupUnique(m, s);
    var c := Lookup(p, s.name).value;
    var now := Lookup(n, s.name);
    if now.None? {
      ScopeChangesMembers(now, c, StepUp);
      ScopeChangesMembers(Some(s), c, StepUp);
      OnlyOverN(m, n, p, c, NewScope(c.name, c.description, c.stepUp, c.shortLived, c.freshSignIn));
    } else {
      var t := now.value;
      assert Covered(t, m);
      var u :| u in m && Within(t, u);
      LookupUnique(m, u);
      var flag := if t.stepUp && !s.stepUp then StepUp else if t.shortLived && !s.shortLived then ShortLived else FreshSignIn;
      assert HasFlag(t, flag) && !HasFlag(s, flag) && !HasFlag(c, flag);
      ScopeChangesMembers(now, c, flag);
      ScopeChangesMembers(Some(s), c, flag);
      OnlyOverN(m, n, p, c, FlagRemoved(c.name, flag));
    }
  }

  lemma {:induction false} SameLookups(m: seq<DeclaredScope>, n: seq<DeclaredScope>, p: seq<DeclaredScope>)
    requires forall name :: Lookup(m, name) == Lookup(n, name)
    ensures Changes(m, p) == Changes(n, p)
  {
    if p != [] { SameLookups(m, n, p[..|p| - 1]); }
  }

  /** Between two documents in force, of which the later is no wider and whose merges with the
      candidate change nothing, the reviewed changes stay the same exactly when no scope was
      lost or tightened. */
  lemma ListStaysExactlyWhenScopesStay(m: seq<DeclaredScope>, n: seq<DeclaredScope>, p: seq<DeclaredScope>)
    requires UniqueNames(m) && UniqueNames(n) && UniqueNames(p) && MergeScopes(m, p) == m && NoWider(n, m)
    ensures SameChanges(Changes(m, p), Changes(n, p)) <==> forall s :: s in m ==> s in n
  {
    if s :| s in m && s !in n {
      LostScopeShows(m, n, p, s);
    } else {
      forall name ensures Lookup(m, name) == Lookup(n, name) {
        if Lookup(m, name).Some? { LookupUnique(n, Lookup(m, name).value); }
        if Lookup(n, name).Some? { assert Covered(Lookup(n, name).value, m); }
      }
      SameLookups(m, n, p);
    }
  }

  // ---------------------------------------------------------------- over runs

  /** A pending document has been merged into the one in force. */
  predicate Merged(row: Row) {
    row.pending.Some? ==> Merge(row.metadata, row.pending.value) == row.metadata
  }

  lemma StepKeepsMerged(row: Row, e: Event)
    requires Merged(row)
    ensures Merged(After(row, e))
  {
    if e.Fetched? { MergeTwice(row.metadata, e.candidate); }
    hide Merge, Canonical;
  }

  lemma {:induction false} RunKeepsMerged(row: Row, run: seq<Event>, n: nat)
    requires Merged(row) && n <= |run|
    ensures Merged(At(row, run, n))
  {
    hide After, Merged;
    if n > 0 {
      RunKeepsMerged(row, run, n - 1);
      StepKeepsMerged(At(row, run, n - 1), run[n - 1]);
    }
  }

  /** The document still has the scope, with no flag that it lacked. */
  predicate Keeps(c: ResourceMetadata, s: DeclaredScope) {
    Lookup(c.scopes, s.name).Some? && MergeScope(s, Lookup(c.scopes, s.name).value) == s
  }

  /** After a fetch, in force is what merging the two documents leaves, whether or not the
      candidate widens. */
  lemma FetchedScopes(row: Row, e: Event, s: DeclaredScope)
    requires Inv(row) && Valid(e) && e.Fetched?
    ensures s in After(row, e).metadata.scopes <==> s in MergeScopes(row.metadata.scopes, e.candidate.scopes)
  {
    if !Widens(row.metadata, e.candidate) { NarrowingIsTakenWhole(row.metadata.scopes, e.candidate.scopes, s); }
    hide Canonical;
  }

  /** One fetch keeps a scope of the reviewed document `m` exactly when it was kept so far and the
      candidate keeps it. */
  lemma MergeKeepsScope(m: seq<DeclaredScope>, a: seq<DeclaredScope>, c: ResourceMetadata, s: DeclaredScope)
    requires UniqueNames(m) && UniqueNames(a) && NoWider(a, m) && s in m
    ensures s in MergeScopes(a, c.scopes) <==> s in a && Keeps(c, s)
  {
    MergeScopesMembers(a, c.scopes, s);
    if t :| t in a && Lookup(c.scopes, t.name).Some? && s == MergeScope(t, Lookup(c.scopes, t.name).value) {
      assert Covered(t, m);
      var u :| u in m && Within(t, u);
      LookupUnique(m, u);
      LookupUnique(m, s);
    }
  }

  /** No document fetched from step `i` up to state `n` withdraws the scope or adds a flag to it. */
  ghost predicate KeptByAll(run: seq<Event>, i: nat, n: nat, s: DeclaredScope)
    requires n <= |run|
  {
    forall k :: i <= k < n && run[k].Fetched? ==> Keeps(run[k].candidate, s)
  }

  lemma {:induction false} ScopeStays(row: Row, run: seq<Event>, i: nat, n: nat, s: DeclaredScope)
    requires Inv(row) && ValidRun(run) && i <= n <= |run| && NothingAccepted(row, run, i, n)
    requires s in At(row, run, i).metadata.scopes
    ensures s in At(row, run, n).metadata.scopes <==> KeptByAll(run, i, n, s)
  {
    hide After, Keeps, Canonical, Inv;
    if i < n {
      ScopeStays(row, run, i, n - 1, s);
      var before, e := At(row, run, n - 1), run[n - 1];
      assert KeptByAll(run, i, n, s) <==> KeptByAll(run, i, n - 1, s) && (e.Fetched? ==> Keeps(e.candidate, s));
      assert Valid(e);
      RunKeepsInv(row, run, i);
      RunKeepsInv(row, run, n - 1);
      RefreshesOnlyNarrow(row, run, i, n - 1);
      ScopeStep(At(row, run, i), before, e, s);
    }
  }

  lemma ScopeStep(reviewed: Row, before: Row, e: Event, s: DeclaredScope)
    requires Inv(reviewed) && Inv(before) && Valid(e) && NoWider(before.metadata.scopes, reviewed.metadata.scopes)
    requires s in reviewed.metadata.scopes && (e.Accept? ==> !Acceptable(before, e.fingerprint))
    ensures s in After(before, e).metadata.scopes <==> s in before.metadata.scopes && (e.Fetched? ==> Keeps(e.candidate, s))
  {
    if e.Fetched? {
      FetchedScopes(before, e, s);
      MergeKeepsScope(reviewed.metadata.scopes, before.metadata.scopes, e.candidate, s);
      hide After, Keeps;
    }
  }

  /** From review to accept, over any run without an accept in between that ends with the
      reviewed fingerprint pending: the accept makes exactly the changes reviewed if and only if
      no document fetched in between withdrew a scope then in force or added a flag to it. */
  lemma WhenReviewStaysCurrent(row: Row, run: seq<Event>, i: nat, n: nat)
    requires Inv(row) && row.pending.None? && ValidRun(run) && i <= n <= |run| && NothingAccepted(row, run, i, n)
    requires SamePending(At(row, run, i).pending, At(row, run, n).pending)
    ensures PendingOf(At(row, run, i)).Some? && PendingOf(At(row, run, n)).Some?
    ensures SameChanges(PendingOf(At(row, run, i)).value.changes, PendingOf(At(row, run, n)).value.changes)
      <==> forall s :: s in At(row, run, i).metadata.scopes ==> KeptByAll(run, i, n, s)
  {
    hide After, KeptByAll, Canonical, Merge;
    RunKeepsInv(row, run, i);
    RunKeepsInv(row, run, n);
    RunKeepsMerged(row, run, i);
    RefreshesOnlyNarrow(row, run, i, n);
    var was, is' := At(row, run, i), At(row, run, n);
    forall s | s in was.metadata.scopes ensures s in is'.metadata.scopes <==> KeptByAll(run, i, n, s) {
      ScopeStays(row, run, i, n, s);
    }
    hide At;
    ReviewedAgain(was, is');
  }

  lemma ReviewedAgain(was: Row, is': Row)
    requires Inv(was) && Inv(is') && Merged(was) && NoWider(is'.metadata.scopes, was.metadata.scopes)
    requires SamePending(was.pending, is'.pending)
    ensures PendingOf(was).Some? && PendingOf(is').Some?
    ensures SameChanges(PendingOf(was).value.changes, PendingOf(is').value.changes) <==>
      forall s :: s in was.metadata.scopes ==> s in is'.metadata.scopes
  {
    var p, q := was.pending.value, is'.pending.value;
    FingerprintsAgree(p, q);
    CandidateOrderDoesNotMatter(is'.metadata.scopes, p.scopes, q.scopes);
    ListStaysExactlyWhenScopesStay(was.metadata.scopes, is'.metadata.scopes, p.scopes);
    hide Changes, Canonical;
  }

  /** In particular a review stays current as long as its stretch of equal fingerprints does. */
  lemma StretchKeepsReview(row: Row, run: seq<Event>, k: nat, i: nat, n: nat)
    requires Inv(row) && row.pending.None? && ValidRun(run) && StretchStart(row, run, k, n) && k <= i <= n
    ensures PendingOf(At(row, run, i)).Some? && PendingOf(At(row, run, n)).Some?
    ensures SameChanges(PendingOf(At(row, run, i)).value.changes, PendingOf(At(row, run, n)).value.changes)
  {
    hide After, Canonical, Merge;
    assert SamePending(At(row, run, i).pending, At(row, run, n).pending);
    ReviewStaysCurrent(row, run, k, i, n);
    RunKeepsInv(row, run, i);
    RunKeepsInv(row, run, n);
    RunKeepsMerged(row, run, i);
    hide At;
    Reflexive(At(row, run, n).metadata.scopes);
    ReviewedAgain(At(row, run, i), At(row, run, n));
  }
}
