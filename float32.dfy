/**
 * The source's `f32` values. Only copying and the `==` of IEEE 754 binary32 matter to
 * the modelled code, so a float is its 32-bit pattern and equality follows the standard:
 * a NaN equals nothing (not even itself) and +0 equals -0; all other values are equal
 * exactly when their patterns are.
 */
module Float32 {

  newtype F32 = b: int | 0 <= b < 0x1_0000_0000

  /** The pattern of +0.0. */
  const Zero: F32 := 0

  predicate IsNaN(x: F32) {
    (x as int / 0x80_0000) % 0x100 == 0xFF && x as int % 0x80_0000 != 0
  }

  /** +0.0 or -0.0. */
  predicate IsZero(x: F32) {
    x as int % 0x8000_0000 == 0
  }

  /** The `==` operator of `f32`. */
  predicate FEq(x: F32, y: F32) {
    !IsNaN(x) && !IsNaN(y) && (x == y || (IsZero(x) && IsZero(y)))
  }

  lemma FEqSymmetric(x: F32, y: F32)
    ensures FEq(x, y) == FEq(y, x)
  {
  }

  lemma FEqTransitive(x: F32, y: F32, z: F32)
    requires FEq(x, y) && FEq(y, z)
    ensures FEq(x, z)
  {
  }

  /** `f32` equality is reflexive except on NaN. */
  lemma FEqReflexive(x: F32)
    ensures FEq(x, x) <==> !IsNaN(x)
  {
  }

  /** Comparing with the literal `0.0` is the zero test. */
  lemma FEqZero(x: F32)
    ensures FEq(x, Zero) <==> IsZero(x)
  {
  }

  /** The two zeros are equal although their bits differ. */
  lemma SignedZerosEqual()
    ensures FEq(0, 0x8000_0000) && 0 as F32 != 0x8000_0000 as F32
  {
  }
}
