/**
 * The `Array where Element: MKAnnotation` helpers of Extensions.swift. The
 * element type's `isEqual(_:)` is a parameter `eq`, called as the source
 * calls it: `eq(candidate, item)` is `candidate.isEqual(item)`. Swift's
 * `mutating` methods take the array and return its new value.
 */
module AnnotationArrays {

  import opened Wrappers

  /** `other.contains { $0.isEqual(item) }`. */
  predicate Matches<T>(other: seq<T>, item: T, eq: (T, T) -> bool) {
    exists j :: 0 <= j < |other| && eq(other[j], item)
  }

  /** `r` is `s` with some elements left out, the rest in their original order. */
  predicate IsSubsequence<T(==)>(r: seq<T>, s: seq<T>)
    decreases |s|
  {
    r == [] || (s != [] && ((r[0] == s[0] && IsSubsequence(r[1..], s[1..])) || IsSubsequence(r, s[1..])))
  }

  /** `subtracted(_:)`: keep the elements no element of `other` is equal to. */
  function Subtracted<T(==)>(s: seq<T>, other: seq<T>, eq: (T, T) -> bool): (r: seq<T>)
    ensures |r| <= |s|
    ensures forall x :: x in r ==> x in s && !Matches(other, x, eq)
    ensures forall i :: 0 <= i < |s| && !Matches(other, s[i], eq) ==> s[i] in r
  {
    if s == [] then []
    else if Matches(other, s[0], eq) then Subtracted(s[1..], other, eq)
    else [s[0]] + Subtracted(s[1..], other, eq)
  }

  /** The result keeps the order of `s`. */
  lemma {:induction false} SubtractedIsSubsequence<T>(s: seq<T>, other: seq<T>, eq: (T, T) -> bool)
    ensures IsSubsequence(Subtracted(s, other, eq), s)
  {
    if s != [] {
      SubtractedIsSubsequence(s[1..], other, eq);
      var rest := Subtracted(s[1..], other, eq);
      if !Matches(other, s[0], eq) {
        assert Subtracted(s, other, eq) == [s[0]] + rest;
        assert ([s[0]] + rest)[1..] == rest;
      }
    }
  }

  /** Exactly the unmatched elements survive, each as often as it occurs in `s`. */
  lemma {:induction false} SubtractedCounts<T>(s: seq<T>, other: seq<T>, eq: (T, T) -> bool, x: T)
    ensures multiset(Subtracted(s, other, eq))[x] == if Matches(other, x, eq) then 0 else multiset(s)[x]
  {
    if s != [] {
      SubtractedCounts(s[1..], other, eq, x);
      assert s == [s[0]] + s[1..];
      assert multiset(s) == multiset([s[0]]) + multiset(s[1..]);
    }
  }

  /** Subtracting nothing gives the array back. */
  lemma {:induction false} SubtractedNothing<T>(s: seq<T>, eq: (T, T) -> bool)
    ensures Subtracted(s, [], eq) == s
  {
    if s != [] {
      SubtractedNothing(s[1..], eq);
      assert !Matches([], s[0], eq);
      assert s == [s[0]] + s[1..];
    }
  }

  /** When every element has an equal in `other`, nothing is left. */
  lemma {:induction false} SubtractedCovered<T>(s: seq<T>, other: seq<T>, eq: (T, T) -> bool)
    requires forall i :: 0 <= i < |s| ==> Matches(other, s[i], eq)
    ensures Subtracted(s, other, eq) == []
  {
    if s != [] {
      assert Matches(other, s[0], eq);
      SubtractedCovered(s[1..], other, eq);
    }
  }

  /** Subtracting an array from itself leaves nothing when `isEqual` is reflexive on it. */
  lemma SubtractedSelf<T>(s: seq<T>, eq: (T, T) -> bool)
    requires forall i :: 0 <= i < |s| ==> eq(s[i], s[i])
    ensures Subtracted(s, s, eq) == []
  {
    forall i | 0 <= i < |s|
      ensures Matches(s, s[i], eq)
    {
      assert eq(s[i], s[i]);
    }
    SubtractedCovered(s, s, eq);
  }

  /** `subtract(_:)`: `self = subtracted(other)`. */
  method Subtract<T(==)>(s: seq<T>, other: seq<T>, eq: (T, T) -> bool) returns (s': seq<T>)
    ensures s' == Subtracted(s, other, eq)
  {
    s' := Subtracted(s, other, eq);
  }

  /** `add(_:)`: `append(contentsOf: other)`. */
  method Add<T>(s: seq<T>, other: seq<T>) returns (s': seq<T>)
    ensures |s'| == |s| + |other|
    ensures s'[..|s|] == s && s'[|s|..] == other
  {
    s' := s + other;
  }

  /** `firstIndex { $0.isEqual(item) }`. */
  function FirstIndex<T>(s: seq<T>, item: T, eq: (T, T) -> bool): (r: Option<nat>)
    ensures r.None? <==> !exists j :: 0 <= j < |s| && eq(s[j], item)
    ensures r.Some? ==> r.value < |s| && eq(s[r.value], item)
    ensures r.Some? ==> forall j :: 0 <= j < r.value ==> !eq(s[j], item)
  {
    if s == [] then None
    else if eq(s[0], item) then Some(0)
    else match FirstIndex(s[1..], item, eq)
      case None => None
      case Some(i) => Some(i + 1)
  }

  /**
   * `remove(_:)`: remove the first element equal to `item` and return it;
   * when there is none, return nil and leave the array as it was.
   */
  method Remove<T>(s: seq<T>, item: T, eq: (T, T) -> bool) returns (s': seq<T>, removed: Option<T>)
    ensures removed.None? <==> forall j :: 0 <= j < |s| ==> !eq(s[j], item)
    ensures removed.None? ==> s' == s
    ensures removed.Some? ==>
              exists i :: 0 <= i < |s| && eq(s[i], item) && (forall j :: 0 <= j < i ==> !eq(s[j], item))
                       && removed.value == s[i] && s' == s[..i] + s[i + 1..]
  {
    match FirstIndex(s, item, eq)
    case None =>
      s', removed := s, None;
    case Some(i) =>
      s', removed := s[..i] + s[i + 1..], Some(s[i]);
  }
}
