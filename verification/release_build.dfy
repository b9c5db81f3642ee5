/**
 `approx_eq_tolerance` as a release build runs it, where an overflowing `-`
 wraps around instead of panicking.

 A debug build panics (modelled in `ApproxEqTrait`); a release build wraps
 around, and the comparison then answers for a negative "difference".
 */
module ReleaseBuild {
  import opened IntTypes
  import opened ApproxEqTrait

  /** The default `approx_eq_tolerance` as a release build runs it: `-` wraps. */
  function ReleaseApproxEqTolerance(t: IntType, a: int, b: int, tolerance: int): (r: bool)
    requires InRange(t, a) && InRange(t, b) && InRange(t, tolerance)
    ensures InRange(t, Distance(a, b)) ==> (r <==> Distance(a, b) < tolerance)
    ensures ApproxEqTolerance(t, a, b, tolerance).Returns?
        ==> r == ApproxEqTolerance(t, a, b, tolerance).value
  {
    if a > b then WrappingSub(t, a, b) < tolerance else WrappingSub(t, b, a) < tolerance
  }

  /** A distance just past `MAX` wraps to that distance minus 2^bits, a negative value. */
  lemma WrapPastMax(t: IntType, d: int)
    requires t.sign == Signed
    requires Max(t) < d <= Max(t) - Min(t)
    ensures Wrap(t, d) == d - Modulus(t.width)
    ensures Wrap(t, d) < 0
  {
    var m := Modulus(t.width);
    assert m <= d - Min(t) < 2 * m;
    assert (d - Min(t)) % m == d - Min(t) - m;
  }

  /**
   Where a debug build would panic, a release build compares the wrapped,
   negative difference |a - b| - 2^bits with the tolerance.
   */
  lemma ReleaseComparesWrappedDistance(t: IntType, a: int, b: int, tolerance: int)
    requires InRange(t, a) && InRange(t, b) && InRange(t, tolerance)
    requires ApproxEqTolerance(t, a, b, tolerance).Panics?
    ensures ReleaseApproxEqTolerance(t, a, b, tolerance)
        <==> Distance(a, b) - Modulus(t.width) < tolerance
  {
    PanicsExactlyOnSignedOverflow(t, a, b, tolerance);
    WrapPastMax(t, Distance(a, b));
  }

  /**
   In a release build, the largest and smallest value of every signed type
   are reported approximately equal under every non-negative tolerance,
   although they lie 2^bits - 1 apart.
   */
  lemma ReleaseMisjudgesExtremes(t: IntType, tolerance: int)
    requires t.sign == Signed && InRange(t, tolerance) && tolerance >= 0
    ensures ReleaseApproxEqTolerance(t, Max(t), Min(t), tolerance)
    ensures Distance(Max(t), Min(t)) >= tolerance
  {
    WrapPastMax(t, Max(t) - Min(t));
  }

  /** `127i8.approx_eq_tolerance(&-128, &1)` is true in a release build. */
  lemma I8ExtremesReleaseEqual()
    ensures ReleaseApproxEqTolerance(I8, 127, -128, 1)
    ensures Distance(127, -128) == 255
  {
    ReleaseMisjudgesExtremes(I8, 1);
  }
}
