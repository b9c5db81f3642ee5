/**
 A corrected `approx_eq_tolerance` for the integer types. The larger-minus-
 smaller difference is taken in the unsigned type of the same width, where
 it always fits, so the comparison is total in either build profile and
 means exactly |a - b| < tolerance.
 */
module CorrectedComparison {
  import opened IntTypes
  import opened ApproxEqTrait

  /**
   The corrected comparison: the larger-minus-smaller difference is taken in
   the unsigned type of the same width, and a non-positive tolerance is
   rejected before the tolerance is cast to that type.
   */
  function AbsDiffApproxEqTolerance(t: IntType, a: int, b: int, tolerance: int): (r: bool)
    requires InRange(t, a) && InRange(t, b) && InRange(t, tolerance)
    ensures r <==> Distance(a, b) < tolerance
  {
    var u := UnsignedOf(t);
    var d := if a > b then WrappingSub(u, a, b) else WrappingSub(u, b, a);
    DistanceFitsUnsignedOf(t, a, b);
    tolerance > 0 && d < Wrap(u, tolerance)
  }

  /**
   The corrected comparison agrees with the source wherever the source
   returns, and with the source exactly on unsigned types.
   */
  lemma AbsDiffAgreesWhereSourceReturns(t: IntType, a: int, b: int, tolerance: int)
    requires InRange(t, a) && InRange(t, b) && InRange(t, tolerance)
    ensures ApproxEqTolerance(t, a, b, tolerance).Returns?
        ==> ApproxEqTolerance(t, a, b, tolerance) == Returns(AbsDiffApproxEqTolerance(t, a, b, tolerance))
    ensures t.sign == Unsigned
        ==> ApproxEqTolerance(t, a, b, tolerance) == Returns(AbsDiffApproxEqTolerance(t, a, b, tolerance))
  {
  }

  /** The corrected comparison is symmetric and monotone in the tolerance. */
  lemma AbsDiffSymmetricMonotone(t: IntType, a: int, b: int, tolerance: int, wider: int)
    requires InRange(t, a) && InRange(t, b) && InRange(t, tolerance) && InRange(t, wider)
    requires tolerance <= wider
    ensures AbsDiffApproxEqTolerance(t, a, b, tolerance) == AbsDiffApproxEqTolerance(t, b, a, tolerance)
    ensures AbsDiffApproxEqTolerance(t, a, b, tolerance) ==> AbsDiffApproxEqTolerance(t, a, b, wider)
  {
  }

  /** The corrected comparison answers the extreme i8 pair correctly. */
  lemma I8ExtremesAbsDiffNotEqual()
    ensures !AbsDiffApproxEqTolerance(I8, 127, -128, 1)
    ensures AbsDiffApproxEqTolerance(I8, 127, -128, 127) == false
    ensures AbsDiffApproxEqTolerance(I8, 127, 126, 2)
  {
  }
}
