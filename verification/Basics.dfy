/** Small vocabulary shared by every module: optional values, and the list filters
    that keep, drop or de-duplicate. */
module Basics {

  /** Milliseconds since the epoch. */
  type Time = int

  datatype Option<+T> = None | Some(value: T)

  /** The members that are wanted, in order. */
  function Keep(xs: seq<string>, wanted: set<string>): (r: seq<string>)
    ensures forall x :: x in r <==> x in xs && x in wanted
    ensures |r| <= |xs|
  {
    if xs == [] then [] else
      (if xs[0] in wanted then [xs[0]] else []) + Keep(xs[1..], wanted)
  }

  /** The members that are not unwanted, in order. */
  function Drop(xs: seq<string>, unwanted: set<string>): (r: seq<string>)
    ensures forall x :: x in r <==> x in xs && x !in unwanted
  {
    if xs == [] then [] else
      (if xs[0] in unwanted then [] else [xs[0]]) + Drop(xs[1..], unwanted)
  }

  /** The first occurrence of every member, in order. */
  function Dedupe(xs: seq<string>): (r: seq<string>)
    ensures forall x :: x in r <==> x in xs
    ensures NoRepeats(r)
  {
    if xs == [] then [] else
      var last := |xs| - 1;
      var front := Dedupe(xs[..last]);
      assert xs == xs[..last] + [xs[last]];
      if xs[last] in front then front else front + [xs[last]]
  }

  ghost predicate NoRepeats<T>(xs: seq<T>) {
    forall i, j :: 0 <= i < j < |xs| ==> xs[i] != xs[j]
  }

  lemma KeepAll(xs: seq<string>, wanted: set<string>)
    requires forall x :: x in xs ==> x in wanted
    ensures Keep(xs, wanted) == xs
  {
    if xs != [] { KeepAll(xs[1..], wanted); }
  }

  lemma {:induction false} SubsetSize<T>(a: set<T>, b: set<T>)
    requires a <= b
    ensures |a| <= |b|
    decreases a
  {
    if a != {} {
      var x :| x in a;
      SubsetSize(a - {x}, b - {x});
    }
  }
}
