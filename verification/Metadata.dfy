/** Comparison of resource-server metadata documents (metadata-changes.ts): what a fetched
    document widens, and the part of it that can be taken over at once. */
module Metadata {
  import opened Basics

  datatype DeclaredScope = DeclaredScope(name: string, description: string, stepUp: bool, shortLived: bool, freshSignIn: bool)

  datatype ResourceMetadata = ResourceMetadata(
    resource: string,
    resourceName: Option<string>,
    scopes: seq<DeclaredScope>,
    scopesSupported: seq<string>,
    hasScopeDescriptions: bool)

  datatype ScopeFlag = StepUp | ShortLived | FreshSignIn

  datatype PendingChange =
    | NewScope(scope: string, description: string, stepUp: bool, shortLived: bool, freshSignIn: bool)
    | FlagRemoved(scope: string, flag: ScopeFlag)
    | DescriptionChanged(scope: string, from: string, to: string)

  function Names(scopes: seq<DeclaredScope>): set<string> {
    set s | s in scopes :: s.name
  }

  lemma NamesAppend(scopes: seq<DeclaredScope>, s: DeclaredScope)
    ensures Names(scopes + [s]) == Names(scopes) + {s.name}
  {
    assert s in scopes + [s];
  }

  ghost predicate UniqueNames(scopes: seq<DeclaredScope>) {
    forall i, j :: 0 <= i < j < |scopes| ==> scopes[i].name != scopes[j].name
  }

  /** The look-up in a map built from the list: of several matches, the last. */
  function Lookup(scopes: seq<DeclaredScope>, name: string): (r: Option<DeclaredScope>)
    ensures r.Some? ==> r.value in scopes && r.value.name == name
    ensures r.None? <==> name !in Names(scopes)
  {
    if scopes == [] then None
    else if scopes[|scopes| - 1].name == name then Some(scopes[|scopes| - 1])
    else
      assert scopes == scopes[..|scopes| - 1] + [scopes[|scopes| - 1]];
      Lookup(scopes[..|scopes| - 1], name)
  }

  lemma LookupAppend(scopes: seq<DeclaredScope>, s: DeclaredScope, name: string)
    ensures Lookup(scopes + [s], name) == if s.name == name then Some(s) else Lookup(scopes, name)
  {
    assert (scopes + [s])[..|scopes|] == scopes;
  }

  /** With unique names the last match is the only one. */
  lemma {:induction false} LookupUnique(scopes: seq<DeclaredScope>, s: DeclaredScope)
    requires UniqueNames(scopes) && s in scopes
    ensures Lookup(scopes, s.name) == Some(s)
  {
    var front, last := scopes[..|scopes| - 1], scopes[|scopes| - 1];
    assert scopes == front + [last];
    if last != s {
      LookupUnique(front, s);
    }
  }

  // ---------------------------------------------------------------- the order

  /** What one scope of a candidate widens over the scope `was` of the same name. */
  function ScopeChanges(was: Option<DeclaredScope>, c: DeclaredScope): seq<PendingChange> {
    if was.None? then [NewScope(c.name, c.description, c.stepUp, c.shortLived, c.freshSignIn)]
    else
      var a := was.value;
      FlagChange(a.stepUp, c.stepUp, c.name, StepUp)
      + FlagChange(a.shortLived, c.shortLived, c.name, ShortLived)
      + FlagChange(a.freshSignIn, c.freshSignIn, c.name, FreshSignIn)
      + (if a.description != c.description then [DescriptionChanged(c.name, a.description, c.description)] else [])
  }

  function FlagChange(had: bool, has: bool, scope: string, flag: ScopeFlag): seq<PendingChange> {
    if had && !has then [FlagRemoved(scope, flag)] else []
  }

  function Changes(inForce: seq<DeclaredScope>, candidate: seq<DeclaredScope>): seq<PendingChange> {
    if candidate == [] then [] else
      var last := |candidate| - 1;
      Changes(inForce, candidate[..last]) + ScopeChanges(Lookup(inForce, candidate[last].name), candidate[last])
  }

  /** `a` puts at least the restrictions of `b` on a scope, under the same consent text. */
  predicate Within(a: DeclaredScope, b: DeclaredScope) {
    && a.name == b.name && a.description == b.description
    && (b.stepUp ==> a.stepUp) && (b.shortLived ==> a.shortLived) && (b.freshSignIn ==> a.freshSignIn)
  }

  /** The order on documents: each scope of `d` is within one of `a`. */
  ghost predicate NoWider(d: seq<DeclaredScope>, a: seq<DeclaredScope>) {
    forall s :: s in d ==> Covered(s, a)
  }

  ghost predicate Covered(s: DeclaredScope, a: seq<DeclaredScope>) {
    exists t :: t in a && Within(s, t)
  }

  /** The list of changes is empty exactly for a document that is no wider. */
  lemma {:induction false} NoChangesIsNoWider(a: seq<DeclaredScope>, d: seq<DeclaredScope>)
    requires UniqueNames(a)
    ensures Changes(a, d) == [] <==> NoWider(d, a)
  {
    if d != [] {
      var front, last := d[..|d| - 1], d[|d| - 1];
      assert d == front + [last];
      NoChangesIsNoWider(a, front);
      var was := Lookup(a, last.name);
      assert ScopeChanges(was, last) == [] <==> was.Some? && Within(last, was.value);
      if t :| t in a && Within(last, t) {
        LookupUnique(a, t);
      }
      assert Covered(last, a) <==> ScopeChanges(was, last) == [];
      assert NoWider(d, a) <==> NoWider(front, a) && Covered(last, a);
    }
  }

  lemma NoWiderTransitive(a: seq<DeclaredScope>, b: seq<DeclaredScope>, c: seq<DeclaredScope>)
    requires NoWider(a, b) && NoWider(b, c)
    ensures NoWider(a, c)
  {
    forall s | s in a ensures Covered(s, c) {
      var m :| m in b && Within(s, m);
      var t :| t in c && Within(m, t);
      assert Within(s, t);
    }
  }

  // ---------------------------------------------------------------- the meet

  function MergeScope(a: DeclaredScope, c: DeclaredScope): DeclaredScope {
    DeclaredScope(a.name, a.description, a.stepUp || c.stepUp, a.shortLived || c.shortLived, a.freshSignIn || c.freshSignIn)
  }

  function MergeScopes(inForce: seq<DeclaredScope>, candidate: seq<DeclaredScope>): seq<DeclaredScope> {
    if inForce == [] then [] else
      var last := |inForce| - 1;
      var c := Lookup(candidate, inForce[last].name);
      MergeScopes(inForce[..last], candidate) + (if c.None? then [] else [MergeScope(inForce[last], c.value)])
  }

  function Merge(inForce: ResourceMetadata, candidate: ResourceMetadata): ResourceMetadata {
    var scopes := MergeScopes(inForce.scopes, candidate.scopes);
    inForce.(scopes := scopes, scopesSupported := Keep(inForce.scopesSupported, Names(scopes)))
  }

  /** `d` drops what `c` withdrew and sets every flag that `c` sets. */
  ghost predicate Honours(d: seq<DeclaredScope>, c: seq<DeclaredScope>) {
    forall s :: s in d ==> Lookup(c, s.name).Some? && Within(s, Lookup(c, s.name).value.(description := s.description))
  }

  lemma {:induction false} MergeScopesMembers(a: seq<DeclaredScope>, c: seq<DeclaredScope>, s: DeclaredScope)
    ensures s in MergeScopes(a, c) <==>
      exists t :: t in a && Lookup(c, t.name).Some? && s == MergeScope(t, Lookup(c, t.name).value)
  {
    if a != [] {
      var front, last := a[..|a| - 1], a[|a| - 1];
      assert a == front + [last];
      MergeScopesMembers(front, c, s);
      if t :| t in a && Lookup(c, t.name).Some? && s == MergeScope(t, Lookup(c, t.name).value) {
        assert t in front || t == last;
      }
    }
  }

  lemma {:induction false} MergeKeepsUniqueNames(a: seq<DeclaredScope>, c: seq<DeclaredScope>)
    requires UniqueNames(a)
    ensures UniqueNames(MergeScopes(a, c))
  {
    if a != [] {
      var front, last := a[..|a| - 1], a[|a| - 1];
      assert a == front + [last];
      MergeKeepsUniqueNames(front, c);
      var merged := MergeScopes(front, c);
      forall i | 0 <= i < |merged| ensures merged[i].name != last.name {
        MergeScopesMembers(front, c, merged[i]);
        var t :| t in front && Lookup(c, t.name).Some? && merged[i] == MergeScope(t, Lookup(c, t.name).value);
        var k :| 0 <= k < |front| && front[k] == t;
        assert a[k].name != a[|a| - 1].name;
      }
    }
  }

  /** The merged scopes are the greatest ones no wider than the approved document's that honour
      the candidate's withdrawals and flags. */
  lemma MergeIsMeet(a: seq<DeclaredScope>, c: seq<DeclaredScope>, d: seq<DeclaredScope>)
    ensures NoWider(d, MergeScopes(a, c)) <==> NoWider(d, a) && Honours(d, c)
  {
    if NoWider(d, MergeScopes(a, c)) {
      forall s | s in d
        ensures Covered(s, a)
        ensures Lookup(c, s.name).Some? && Within(s, Lookup(c, s.name).value.(description := s.description))
      {
        var m :| m in MergeScopes(a, c) && Within(s, m);
        MergeScopesMembers(a, c, m);
        var t :| t in a && Lookup(c, t.name).Some? && m == MergeScope(t, Lookup(c, t.name).value);
        assert Within(s, t);
      }
    }
    if NoWider(d, a) && Honours(d, c) {
      forall s | s in d ensures Covered(s, MergeScopes(a, c)) {
        var t :| t in a && Within(s, t);
        var m := MergeScope(t, Lookup(c, t.name).value);
        MergeScopesMembers(a, c, m);
        assert Within(s, m);
      }
    }
  }

  lemma MergeAppend(a: seq<DeclaredScope>, s: DeclaredScope, c: seq<DeclaredScope>)
    ensures MergeScopes(a + [s], c) == MergeScopes(a, c) + (if Lookup(c, s.name).None? then [] else [MergeScope(s, Lookup(c, s.name).value)])
  {
    assert (a + [s])[..|a|] == a;
  }

  lemma {:induction false} MergeScopesTwice(a: seq<DeclaredScope>, c: seq<DeclaredScope>)
    ensures MergeScopes(MergeScopes(a, c), c) == MergeScopes(a, c)
  {
    if a != [] {
      var front, last := a[..|a| - 1], a[|a| - 1];
      MergeScopesTwice(front, c);
      var found := Lookup(c, last.name);
      if found.Some? {
        MergeAppend(MergeScopes(front, c), MergeScope(last, found.value), c);
      } else {
        assert MergeScopes(a, c) == MergeScopes(front, c);
      }
    }
  }

  /** Fetching the same candidate again changes nothing. */
  lemma MergeTwice(a: ResourceMetadata, c: ResourceMetadata)
    ensures Merge(Merge(a, c), c) == Merge(a, c)
  {
    MergeScopesTwice(a.scopes, c.scopes);
    KeepAll(Keep(a.scopesSupported, Names(MergeScopes(a.scopes, c.scopes))), Names(MergeScopes(a.scopes, c.scopes)));
  }

  lemma {:induction false} MergeLookup(a: seq<DeclaredScope>, c: seq<DeclaredScope>, name: string)
    ensures var found := Lookup(c, name);
      Lookup(MergeScopes(a, c), name) ==
        if Lookup(a, name).Some? && found.Some? then Some(MergeScope(Lookup(a, name).value, found.value)) else None
  {
    if a != [] {
      var front, last := a[..|a| - 1], a[|a| - 1];
      assert a == front + [last];
      MergeLookup(front, c, name);
      LookupAppend(front, last, name);
      var found := Lookup(c, last.name);
      if found.Some? {
        LookupAppend(MergeScopes(front, c), MergeScope(last, found.value), name);
      } else {
        assert MergeScopes(a, c) == MergeScopes(front, c);
      }
      hide Lookup;
    }
  }

  /** Merging takes nothing off the list the operator reviews: what the candidate widens over
      the merged document is, item by item, what it widens over the approved one. */
  lemma MergeKeepsChanges(a: ResourceMetadata, c: ResourceMetadata)
    requires UniqueNames(c.scopes)
    ensures Changes(Merge(a, c).scopes, c.scopes) == Changes(a.scopes, c.scopes)
  {
    PrefixKeepsChanges(a.scopes, c.scopes, |c.scopes|);
    assert c.scopes[..|c.scopes|] == c.scopes;
  }

  lemma {:induction false} PrefixKeepsChanges(a: seq<DeclaredScope>, c: seq<DeclaredScope>, n: nat)
    requires UniqueNames(c) && n <= |c|
    ensures Changes(MergeScopes(a, c), c[..n]) == Changes(a, c[..n])
  {
    if n > 0 {
      PrefixKeepsChanges(a, c, n - 1);
      assert c[..n][..n - 1] == c[..n - 1];
      MergeLookup(a, c, c[n - 1].name);
      LookupUnique(c, c[n - 1]);
    }
  }

  /** Without a widening there is nothing to merge: the document in force narrowed by the
      candidate is the candidate itself, up to order. */
  lemma NarrowingIsTakenWhole(a: seq<DeclaredScope>, c: seq<DeclaredScope>, s: DeclaredScope)
    requires UniqueNames(a) && UniqueNames(c) && Changes(a, c) == []
    ensures s in MergeScopes(a, c) <==> s in c
  {
    NoChangesIsNoWider(a, c);
    MergeScopesMembers(a, c, s);
    if s in c {
      var t :| t in a && Within(s, t);
      LookupUnique(c, s);
      assert s == MergeScope(t, s);
    }
    if t :| t in a && Lookup(c, t.name).Some? && s == MergeScope(t, Lookup(c, t.name).value) {
      var u :| u in a && Within(Lookup(c, t.name).value, u);
      LookupUnique(a, t);
      LookupUnique(a, u);
    }
  }

  // ---------------------------------------------------------------- in fields

  predicate Loses(t: DeclaredScope, c: DeclaredScope, flag: ScopeFlag) {
    match flag
    case StepUp => t.stepUp && !c.stepUp
    case ShortLived => t.shortLived && !c.shortLived
    case FreshSignIn => t.freshSignIn && !c.freshSignIn
  }

  /** The change `x` that scope `c` of a candidate is over the scopes `a` in force. */
  ghost predicate IsChange(a: seq<DeclaredScope>, c: DeclaredScope, x: PendingChange) {
    match x
    case NewScope(scope, description, stepUp, shortLived, freshSignIn) =>
      c == DeclaredScope(scope, description, stepUp, shortLived, freshSignIn) && forall t :: t in a ==> t.name != scope
    case FlagRemoved(scope, flag) =>
      c.name == scope && exists t :: t in a && t.name == scope && Loses(t, c, flag)
    case DescriptionChanged(scope, from, to) =>
      c.name == scope && c.description == to && from != to && exists t :: t in a && t.name == scope && t.description == from
  }

  lemma ScopeChangesInFields(a: seq<DeclaredScope>, c: DeclaredScope, x: PendingChange)
    requires UniqueNames(a)
    ensures x in ScopeChanges(Lookup(a, c.name), c) <==> IsChange(a, c, x)
  {
    forall t | t in a && t.name == c.name ensures Lookup(a, c.name) == Some(t) { LookupUnique(a, t); }
    hide Lookup;
  }

  /** The list of changes names exactly the scopes that are new, the flags that scopes in force lose
      and the descriptions that differ. */
  lemma {:induction false} WhatIsListed(a: seq<DeclaredScope>, d: seq<DeclaredScope>, x: PendingChange)
    requires UniqueNames(a)
    ensures x in Changes(a, d) <==> exists c :: c in d && IsChange(a, c, x)
  {
    if d != [] {
      var front, last := d[..|d| - 1], d[|d| - 1];
      assert d == front + [last];
      WhatIsListed(a, front, x);
      ScopeChangesInFields(a, last, x);
      hide ScopeChanges, IsChange, Lookup;
    }
  }

  /** The merged document keeps name and identity of the one in force, the scopes that both declare,
      each with its approved text and the flags of both, and what it advertised of them. */
  lemma MergedInFields(a: ResourceMetadata, c: ResourceMetadata, s: DeclaredScope, name: string)
    requires UniqueNames(c.scopes)
    ensures var m := Merge(a, c);
      && m.resource == a.resource && m.resourceName == a.resourceName && m.hasScopeDescriptions == a.hasScopeDescriptions
      && (s in m.scopes <==> exists t, u :: t in a.scopes && u in c.scopes && MergedOf(s, t, u))
      && (name in m.scopesSupported <==> name in a.scopesSupported && exists t :: t in m.scopes && t.name == name)
  {
    MergeScopesMembers(a.scopes, c.scopes, s);
    forall u | u in c.scopes ensures Lookup(c.scopes, u.name) == Some(u) { LookupUnique(c.scopes, u); }
    hide Lookup, MergeScopes;
    if t, u :| t in a.scopes && u in c.scopes && MergedOf(s, t, u) {
      assert s == MergeScope(t, u);
    }
    if t :| t in a.scopes && Lookup(c.scopes, t.name).Some? && s == MergeScope(t, Lookup(c.scopes, t.name).value) {
      assert MergedOf(s, t, Lookup(c.scopes, t.name).value);
    }
  }

  predicate MergedOf(s: DeclaredScope, t: DeclaredScope, u: DeclaredScope) {
    && t.name == u.name && s.name == t.name && s.description == t.description
    && (s.stepUp <==> t.stepUp || u.stepUp) && (s.shortLived <==> t.shortLived || u.shortLived) && (s.freshSignIn <==> t.freshSignIn || u.freshSignIn)
  }

  // ---------------------------------------------------------------- well-formed documents

  predicate Nested(s: DeclaredScope) {
    (s.freshSignIn ==> s.stepUp) && (s.stepUp ==> s.shortLived)
  }

  /** What validation guarantees of a document, except for the next predicate. */
  ghost predicate WellFormed(m: ResourceMetadata) {
    && UniqueNames(m.scopes)
    && (forall s :: s in m.scopes ==> Nested(s))
    && (forall n :: n in m.scopesSupported ==> n in Names(m.scopes))
  }

  /** No step-up scope is advertised. */
  ghost predicate HidesStepUp(m: ResourceMetadata) {
    forall s :: s in m.scopes && s.stepUp ==> s.name !in m.scopesSupported
  }

  lemma MergeIsWellFormed(a: ResourceMetadata, c: ResourceMetadata)
    requires WellFormed(a) && WellFormed(c)
    ensures WellFormed(Merge(a, c))
  {
    MergeKeepsUniqueNames(a.scopes, c.scopes);
    forall s | s in Merge(a, c).scopes ensures Nested(s) {
      MergeScopesMembers(a.scopes, c.scopes, s);
    }
  }

  /** Merging exposes a step-up scope in scopes_supported exactly when the candidate makes a
      scope step-up that the document in force advertises. */
  lemma MergeHidesStepUp(a: ResourceMetadata, c: ResourceMetadata)
    requires WellFormed(a) && WellFormed(c) && HidesStepUp(a)
    ensures HidesStepUp(Merge(a, c)) <==> forall s :: s in c.scopes && s.stepUp ==> s.name !in a.scopesSupported
  {
    var m := Merge(a, c);
    forall s | s in c.scopes && s.stepUp && s.name in a.scopesSupported
      ensures !HidesStepUp(m)
    {
      var t := Lookup(a.scopes, s.name).value;
      LookupUnique(c.scopes, s);
      MergeScopesMembers(a.scopes, c.scopes, MergeScope(t, s));
      assert MergeScope(t, s) in m.scopes && s.name in m.scopesSupported;
    }
    if s :| s in m.scopes && s.stepUp && s.name in m.scopesSupported {
      MergeScopesMembers(a.scopes, c.scopes, s);
      var t :| t in a.scopes && Lookup(c.scopes, t.name).Some? && s == MergeScope(t, Lookup(c.scopes, t.name).value);
      assert Lookup(c.scopes, t.name).value.stepUp;
    }
  }

  lemma MergeCanExposeStepUp() returns (a: ResourceMetadata, c: ResourceMetadata)
    ensures WellFormed(a) && HidesStepUp(a) && WellFormed(c) && HidesStepUp(c)
    ensures Changes(a.scopes, c.scopes) != [] && !HidesStepUp(Merge(a, c))
  {
    var plain := DeclaredScope("docs", "Read documents", false, false, false);
    var wide := DeclaredScope("mail", "Read mail", false, false, false);
    a := ResourceMetadata("https://r.example", None, [plain], ["docs"], true);
    c := ResourceMetadata("https://r.example", None, [wide, plain.(stepUp := true, shortLived := true)], [], true);
    assert c.scopes[1] in c.scopes;
    MergeHidesStepUp(a, c);
    assert Changes(a.scopes, [wide]) != [] by { assert [wide][..0] == []; }
    assert c.scopes[..1] == [wide];
  }

  // ---------------------------------------------------------------- the loops

  method PendingChanges(inForce: Option<ResourceMetadata>, candidate: ResourceMetadata) returns (changes: seq<PendingChange>)
    ensures changes == Changes(if inForce.None? then [] else inForce.value.scopes, candidate.scopes)
  {
    var current := if inForce.None? then [] else inForce.value.scopes;
    changes := [];
    for i := 0 to |candidate.scopes|
      invariant changes == Changes(current, candidate.scopes[..i])
    {
      ChangesStep(current, candidate.scopes, i);
      changes := PushChanges(changes, Lookup(current, candidate.scopes[i].name), candidate.scopes[i]);
    }
    assert candidate.scopes[..|candidate.scopes|] == candidate.scopes;
  }

  method PushChanges(changes: seq<PendingChange>, was: Option<DeclaredScope>, c: DeclaredScope) returns (r: seq<PendingChange>)
    ensures r == changes + ScopeChanges(was, c)
  {
    if was.None? {
      return changes + [NewScope(c.name, c.description, c.stepUp, c.shortLived, c.freshSignIn)];
    }
    var a := was.value;
    hide FlagChange;
    r := PushFlag(changes, a.stepUp, c.stepUp, c.name, StepUp);
    r := PushFlag(r, a.shortLived, c.shortLived, c.name, ShortLived);
    r := PushFlag(r, a.freshSignIn, c.freshSignIn, c.name, FreshSignIn);
    if a.description != c.description { r := r + [DescriptionChanged(c.name, a.description, c.description)]; }
  }

  method PushFlag(changes: seq<PendingChange>, had: bool, has: bool, scope: string, flag: ScopeFlag) returns (r: seq<PendingChange>)
    ensures r == changes + FlagChange(had, has, scope, flag)
  {
    r := changes;
    if had && !has { r := r + [FlagRemoved(scope, flag)]; }
  }

  lemma ChangesStep(current: seq<DeclaredScope>, candidate: seq<DeclaredScope>, i: nat)
    requires i < |candidate|
    ensures Changes(current, candidate[..i + 1]) == Changes(current, candidate[..i]) + ScopeChanges(Lookup(current, candidate[i].name), candidate[i])
  {
    assert candidate[..i + 1][..i] == candidate[..i];
  }

  method MergeMetadata(inForce: ResourceMetadata, candidate: ResourceMetadata) returns (merged: ResourceMetadata)
    ensures merged == Merge(inForce, candidate)
  {
    var scopes := [];
    for i := 0 to |inForce.scopes|
      invariant scopes == MergeScopes(inForce.scopes[..i], candidate.scopes)
    {
      var a := inForce.scopes[i];
      assert inForce.scopes[..i + 1][..i] == inForce.scopes[..i];
      var found := Lookup(candidate.scopes, a.name);
      if found.None? { continue; }
      var c := found.value;
      scopes := scopes + [DeclaredScope(a.name, a.description, a.stepUp || c.stepUp, a.shortLived || c.shortLived, a.freshSignIn || c.freshSignIn)];
    }
    assert inForce.scopes[..|inForce.scopes|] == inForce.scopes;
    var kept := set s | s in scopes :: s.name;
    merged := ResourceMetadata(inForce.resource, inForce.resourceName, scopes, Keep(inForce.scopesSupported, kept), inForce.hasScopeDescriptions);
  }
}
