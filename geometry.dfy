/**
 * `CLLocationCoordinate2D` with the app's own `==` and `Hashable`
 * conformance (Extensions.swift).
 */
module Geometry {

  import Doubles

  datatype Coordinate = Coordinate(latitude: Doubles.Double, longitude: Doubles.Double)

  predicate HasNaN(c: Coordinate) {
    Doubles.IsNaN(c.latitude) || Doubles.IsNaN(c.longitude)
  }

  /**
   * The words `hash(into:)` combines, in order: latitude, then longitude.
   * No -0.0 reaches the hasher, and a NaN component stays visible.
   */
  function HashInput(c: Coordinate): (h: seq<bv64>)
    ensures |h| == 2
    ensures forall w :: w in h ==> w != Doubles.NegativeZero
    ensures HasNaN(c) <==> Doubles.IsNaN(h[0]) || Doubles.IsNaN(h[1])
  {
    [Doubles.HashWord(c.latitude), Doubles.HashWord(c.longitude)]
  }

  /**
   * `lhs.latitude == rhs.latitude && lhs.longitude == rhs.longitude`: two
   * coordinates without NaN are equal exactly when they hash the same words.
   */
  predicate Equal(a: Coordinate, b: Coordinate)
    ensures Equal(a, b) <==> !HasNaN(a) && !HasNaN(b) && HashInput(a) == HashInput(b)
  {
    Doubles.Equal(a.latitude, b.latitude) && Doubles.Equal(a.longitude, b.longitude)
  }

  lemma EqualIsSymmetric(a: Coordinate, b: Coordinate)
    ensures Equal(a, b) <==> Equal(b, a)
  {
    Doubles.EqualIsSymmetric(a.latitude, b.latitude);
    Doubles.EqualIsSymmetric(a.longitude, b.longitude);
  }

  lemma EqualIsTransitive(a: Coordinate, b: Coordinate, c: Coordinate)
    requires Equal(a, b) && Equal(b, c)
    ensures Equal(a, c)
  {
    Doubles.EqualIsTransitive(a.latitude, b.latitude, c.latitude);
    Doubles.EqualIsTransitive(a.longitude, b.longitude, c.longitude);
  }

  /** `==` is reflexive exactly on coordinates without a NaN component. */
  lemma EqualReflexiveUnlessNaN(a: Coordinate)
    ensures Equal(a, a) <==> !HasNaN(a)
  {
    Doubles.EqualReflexiveUnlessNaN(a.latitude);
    Doubles.EqualReflexiveUnlessNaN(a.longitude);
  }

  /** Equal coordinates feed the hasher the same words, so they hash alike. */
  lemma EqualImpliesSameHash(a: Coordinate, b: Coordinate)
    requires Equal(a, b)
    ensures HashInput(a) == HashInput(b)
  {
    Doubles.EqualImpliesSameHashWord(a.latitude, b.latitude);
    Doubles.EqualImpliesSameHashWord(a.longitude, b.longitude);
  }
}
