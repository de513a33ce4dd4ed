/**
 The epsilon comparison the envelope follower uses to decide whether a
 parameter differs from the copy a component already holds.

 Doubles are modelled as mathematical reals; rounding of the subtraction is
 not modelled. FLT_EPSILON is the single-precision machine epsilon of the C
 header <float.h>, 2^-23, even though the operands are doubles.
 */
module FloatCompare {

  /** FLT_EPSILON: the gap between 1.0 and the next binary32 value, 2^-23. */
  const FltEpsilon: real := 1.0 / 8388608.0

  function Abs(x: real): (r: real)
    ensures r >= 0.0
    ensures r == x || r == -x
  {
    if x < 0.0 then -x else x
  }

  /** `isFloatEqual(a, b)`: the two values are closer than FLT_EPSILON. */
  predicate IsFloatEqual(a: real, b: real)
    ensures IsFloatEqual(a, b) <==> -FltEpsilon < a - b < FltEpsilon
  {
    Abs(a - b) < FltEpsilon
  }

  /** The value a C++ `bool` takes when it is passed where a `double` is expected. */
  function BoolAsDouble(b: bool): real
  {
    if b then 1.0 else 0.0
  }

  /** |a - a| = 0 < FLT_EPSILON. */
  lemma IsFloatEqualReflexive(a: real)
    ensures IsFloatEqual(a, a)
  {
  }

  lemma IsFloatEqualSymmetric(a: real, b: real)
    ensures IsFloatEqual(a, b) <==> IsFloatEqual(b, a)
  {
  }

  /**
   Comparing two bools through their double images is the same as comparing
   the bools, because 1.0 - 0.0 is not below FLT_EPSILON.
   */
  lemma BoolCompareIsExact(a: bool, b: bool)
    ensures IsFloatEqual(BoolAsDouble(a), BoolAsDouble(b)) <==> a == b
  {
  }
}
