/**
 * Swift's `Double` (IEEE 754 binary64), represented by its bit pattern.
 * Only what the app's equality and hashing look at is modelled: NaN, the
 * two zeros, and finiteness. Arithmetic on doubles is not part of the model.
 */
module Doubles {

  type Double = bv64

  const ExponentBits: bv64 := 0x7FF0_0000_0000_0000
  const MantissaBits: bv64 := 0x000F_FFFF_FFFF_FFFF
  const MagnitudeBits: bv64 := 0x7FFF_FFFF_FFFF_FFFF

  const PositiveZero: Double := 0x0000_0000_0000_0000
  const NegativeZero: Double := 0x8000_0000_0000_0000
  const One: Double := 0x3FF0_0000_0000_0000
  const QuietNaN: Double := 0x7FF8_0000_0000_0000

  predicate IsNaN(d: Double) {
    d & ExponentBits == ExponentBits && d & MantissaBits != 0
  }

  predicate IsZero(d: Double) {
    d & MagnitudeBits == 0
  }

  /**
   * The word `Double.hash(into:)` feeds the hasher: the bit pattern, with
   * -0.0 replaced by +0.0 so that equal values hash alike.
   */
  function HashWord(d: Double): (h: bv64)
    ensures h != NegativeZero
    ensures IsZero(h) == IsZero(d) && IsNaN(h) == IsNaN(d)
    ensures !IsZero(d) ==> h == d
  {
    if IsZero(d) then PositiveZero else d
  }

  /**
   * `==` on Double: a NaN equals nothing, and +0.0 equals -0.0. Equivalently,
   * two non-NaN doubles are equal exactly when they feed the hasher the same word.
   */
  predicate Equal(a: Double, b: Double)
    ensures Equal(a, b) <==> !IsNaN(a) && !IsNaN(b) && HashWord(a) == HashWord(b)
  {
    !IsNaN(a) && !IsNaN(b) && (a == b || (IsZero(a) && IsZero(b)))
  }

  lemma EqualIsSymmetric(a: Double, b: Double)
    ensures Equal(a, b) <==> Equal(b, a)
  {
  }

  lemma EqualIsTransitive(a: Double, b: Double, c: Double)
    requires Equal(a, b) && Equal(b, c)
    ensures Equal(a, c)
  {
  }

  /** Equality is reflexive on every value except NaN. */
  lemma EqualReflexiveUnlessNaN(a: Double)
    ensures Equal(a, a) <==> !IsNaN(a)
  {
  }

  /** The zero normalisation is exactly what makes equal values hash alike. */
  lemma EqualImpliesSameHashWord(a: Double, b: Double)
    requires Equal(a, b)
    ensures HashWord(a) == HashWord(b)
  {
  }

  lemma ZerosAreEqualWithDifferentBits()
    ensures Equal(PositiveZero, NegativeZero) && PositiveZero != NegativeZero
  {
  }

  lemma NaNIsNotEqualToItself()
    ensures IsNaN(QuietNaN) && !Equal(QuietNaN, QuietNaN)
  {
  }
}
