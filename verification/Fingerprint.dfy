/** The canonical view of a metadata document, and its digest as the operator quotes it.
    The digest is taken to be injective, so a fingerprint is the view itself. */
module Fingerprint {
  import opened Basics
  import opened Metadata

  /** What the digest is taken over: the name, and the scopes sorted by name. */
  datatype View = View(name: Option<string>, scopes: seq<DeclaredScope>)

  /** The order of strings by their characters. */
  predicate Less(a: string, b: string) {
    b != [] && (a == [] || a[0] < b[0] || (a[0] == b[0] && Less(a[1..], b[1..])))
  }

  lemma {:induction false} LessTransitive(a: string, b: string, c: string)
    requires Less(a, b) && Less(b, c)
    ensures Less(a, c)
  {
    if a != [] && a[0] == b[0] == c[0] { LessTransitive(a[1..], b[1..], c[1..]); }
  }

  lemma {:induction false} LessTotal(a: string, b: string)
    ensures (Less(a, b) && !Less(b, a) && a != b) || (Less(b, a) && !Less(a, b) && a != b) || (a == b && !Less(a, b))
  {
    if a != [] && b != [] && a[0] == b[0] {
      LessTotal(a[1..], b[1..]);
      assert a == [a[0]] + a[1..] && b == [b[0]] + b[1..];
    }
  }

  /** `x` goes behind the last scope whose name is not greater: the sort is stable. */
  function Insert(sorted: seq<DeclaredScope>, x: DeclaredScope): seq<DeclaredScope> {
    var last := |sorted| - 1;
    if sorted == [] || !Less(x.name, sorted[last].name) then sorted + [x]
    else Insert(sorted[..last], x) + [sorted[last]]
  }

  function SortByName(scopes: seq<DeclaredScope>): seq<DeclaredScope> {
    if scopes == [] then [] else Insert(SortByName(scopes[..|scopes| - 1]), scopes[|scopes| - 1])
  }

  function Canonical(m: ResourceMetadata): View {
    View(m.resourceName, SortByName(m.scopes))
  }

  lemma {:induction false} InsertAdds(sorted: seq<DeclaredScope>, x: DeclaredScope)
    ensures multiset(Insert(sorted, x)) == multiset(sorted) + multiset{x}
  {
    if sorted != [] && Less(x.name, sorted[|sorted| - 1].name) {
      InsertAdds(sorted[..|sorted| - 1], x);
      assert sorted == sorted[..|sorted| - 1] + [sorted[|sorted| - 1]];
    }
  }

  /** Sorting only reorders. */
  lemma {:induction false} SortPermutes(scopes: seq<DeclaredScope>)
    ensures multiset(SortByName(scopes)) == multiset(scopes)
  {
    if scopes != [] {
      SortPermutes(scopes[..|scopes| - 1]);
      InsertAdds(SortByName(scopes[..|scopes| - 1]), scopes[|scopes| - 1]);
      assert scopes == scopes[..|scopes| - 1] + [scopes[|scopes| - 1]];
    }
  }

  ghost predicate Ascending(s: seq<DeclaredScope>) {
    forall i, j :: 0 <= i < j < |s| ==> Less(s[i].name, s[j].name)
  }

  /** `x` is a new name in an ascending list. */
  lemma {:induction false} InsertAscends(sorted: seq<DeclaredScope>, x: DeclaredScope)
    requires Ascending(sorted) && x.name !in Names(sorted)
    ensures Ascending(Insert(sorted, x))
  {
    if sorted != [] {
      var front, last := sorted[..|sorted| - 1], sorted[|sorted| - 1];
      LessTotal(x.name, last.name);
      if Less(x.name, last.name) {
        InsertAscends(front, x);
        var inner := Insert(front, x);
        InsertAdds(front, x);
        forall i | 0 <= i < |inner| ensures Less(inner[i].name, last.name) {
          assert inner[i] in multiset(inner);
          assert inner[i] == x || inner[i] in front;
        }
      } else {
        forall i | 0 <= i < |front| ensures Less(front[i].name, x.name) {
          LessTransitive(sorted[i].name, last.name, x.name);
        }
      }
    }
  }

  lemma {:induction false} SortAscends(scopes: seq<DeclaredScope>)
    requires UniqueNames(scopes)
    ensures Ascending(SortByName(scopes))
  {
    if scopes != [] {
      var front, last := scopes[..|scopes| - 1], scopes[|scopes| - 1];
      SortAscends(front);
      SortPermutes(front);
      forall s | s in SortByName(front) ensures s.name != last.name {
        assert s in multiset(front);
      }
      InsertAscends(SortByName(front), last);
    }
  }

  /** The last scope of an ascending list has the greatest name. */
  lemma LastIsGreatest(a: seq<DeclaredScope>, b: seq<DeclaredScope>)
    requires Ascending(a) && Ascending(b) && multiset(a) == multiset(b) && a != [] && b != []
    ensures a[|a| - 1] == b[|b| - 1]
  {
    var x, y := a[|a| - 1], b[|b| - 1];
    assert x in multiset(b) && y in multiset(a);
    var i :| 0 <= i < |b| && b[i] == x;
    var j :| 0 <= j < |a| && a[j] == y;
    LessTotal(x.name, y.name);
  }

  lemma WithoutLast(a: seq<DeclaredScope>)
    requires a != []
    ensures multiset(a[..|a| - 1]) == multiset(a) - multiset{a[|a| - 1]}
  {
    assert a == a[..|a| - 1] + [a[|a| - 1]];
  }

  /** There is one ascending order. */
  lemma {:induction false} AscendingIsUnique(a: seq<DeclaredScope>, b: seq<DeclaredScope>)
    requires Ascending(a) && Ascending(b) && multiset(a) == multiset(b)
    ensures a == b
  {
    assert |multiset(a)| == |a| && |multiset(b)| == |b|;
    if a != [] {
      LastIsGreatest(a, b);
      WithoutLast(a);
      WithoutLast(b);
      AscendingIsUnique(a[..|a| - 1], b[..|b| - 1]);
      assert a == a[..|a| - 1] + [a[|a| - 1]] && b == b[..|b| - 1] + [b[|b| - 1]];
    }
  }

  /** Fingerprints agree exactly when the names agree and the scopes do as sets; how a server
      happens to list its scopes plays no part. */
  lemma FingerprintsAgree(a: ResourceMetadata, b: ResourceMetadata)
    requires UniqueNames(a.scopes) && UniqueNames(b.scopes)
    ensures Canonical(a) == Canonical(b) <==>
      a.resourceName == b.resourceName && (forall s :: s in a.scopes <==> s in b.scopes)
  {
    SortPermutes(a.scopes);
    SortPermutes(b.scopes);
    if Canonical(a) == Canonical(b) {
      forall s ensures s in a.scopes <==> s in b.scopes {
        assert s in a.scopes <==> s in multiset(a.scopes);
        assert s in b.scopes <==> s in multiset(b.scopes);
      }
    }
    if forall s :: s in a.scopes <==> s in b.scopes {
      SameMembers(a.scopes, b.scopes);
      SortAscends(a.scopes);
      SortAscends(b.scopes);
      AscendingIsUnique(SortByName(a.scopes), SortByName(b.scopes));
    }
  }

  lemma {:induction false} OnceEach(a: seq<DeclaredScope>, s: DeclaredScope)
    requires UniqueNames(a)
    ensures multiset(a)[s] == if s in a then 1 else 0
  {
    if a != [] {
      var front, last := a[..|a| - 1], a[|a| - 1];
      assert a == front + [last];
      OnceEach(front, s);
      if s == last { assert s !in front; }
    }
  }

  lemma SameMembers(a: seq<DeclaredScope>, b: seq<DeclaredScope>)
    requires UniqueNames(a) && UniqueNames(b) && forall s :: s in a <==> s in b
    ensures multiset(a) == multiset(b)
  {
    forall s ensures multiset(a)[s] == multiset(b)[s] {
      OnceEach(a, s);
      OnceEach(b, s);
    }
  }

  /** Equal fingerprints widen the document in force alike. */
  lemma SameFingerprintSameWidening(inForce: seq<DeclaredScope>, a: ResourceMetadata, b: ResourceMetadata)
    requires UniqueNames(inForce) && UniqueNames(a.scopes) && UniqueNames(b.scopes) && Canonical(a) == Canonical(b)
    ensures Changes(inForce, a.scopes) == [] <==> Changes(inForce, b.scopes) == []
  {
    FingerprintsAgree(a, b);
    NoChangesIsNoWider(inForce, a.scopes);
    NoChangesIsNoWider(inForce, b.scopes);
  }
}
