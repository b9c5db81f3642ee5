/**
 The `ApproxEq` trait for the integer types: its default methods
 (`approx_eq`, `approx_ne`, `approx_eq_tolerance`, `approx_ne_tolerance`) and
 the per-type override that replaces `approx_eq` with `==`.

 Rust's `-` is taken with its debug-build meaning: a subtraction that
 overflows panics. A call therefore either returns a boolean or panics, and
 the `Outcome` datatype records which.
 */
module ApproxEqTrait {
  import opened IntTypes

  datatype Outcome = Returns(value: bool) | Panics

  /** `!` applied to the result of a call; a panic propagates. */
  function Not(o: Outcome): (r: Outcome)
    ensures r.Panics? <==> o.Panics?
    ensures r.Returns? ==> r.value == !o.value
  {
    match o
    case Returns(v) => Returns(!v)
    case Panics => Panics
  }

  /**
   The trait's default `approx_eq_tolerance`: subtract the smaller value from
   the larger one and ask whether that difference is strictly below the
   tolerance. The tolerance has the operands' type, so it may be zero or,
   for a signed type, negative.
   */
  function ApproxEqTolerance(t: IntType, a: int, b: int, tolerance: int): (r: Outcome)
    requires InRange(t, a) && InRange(t, b) && InRange(t, tolerance)
    ensures r.Panics? <==> !InRange(t, Distance(a, b))
    ensures r.Returns? ==> (r.value <==> Distance(a, b) < tolerance)
    ensures t.sign == Unsigned ==> r.Returns?
  {
    var difference := if a > b then CheckedSub(t, a, b) else CheckedSub(t, b, a);
    match difference
    case Some(d) => Returns(d < tolerance)
    case None => Panics
  }

  /** The trait's default `approx_ne_tolerance`, the negation of `approx_eq_tolerance`. */
  function ApproxNeTolerance(t: IntType, a: int, b: int, tolerance: int): (r: Outcome)
    requires InRange(t, a) && InRange(t, b) && InRange(t, tolerance)
    ensures r.Panics? <==> !InRange(t, Distance(a, b))
    ensures r.Returns? ==> (r.value <==> Distance(a, b) >= tolerance)
  {
    Not(ApproxEqTolerance(t, a, b, tolerance))
  }

  /**
   The trait's default `approx_eq`, which calls `approx_eq_tolerance` with
   `Zero::zero()`. No integer type uses it, because every one of them
   overrides `approx_eq`; it is kept so that the override's effect shows.
   */
  function ApproxEqDefault(t: IntType, a: int, b: int): (r: Outcome)
    requires InRange(t, a) && InRange(t, b)
    ensures r != Returns(true)
    ensures t.sign == Unsigned ==> r == Returns(false)
  {
    ApproxEqTolerance(t, a, b, 0)
  }

  /**
   The trait's default `approx_ne` for an implementor that also keeps the
   default `approx_eq`. None of the ten integer types is such an
   implementor: the `approx_ne` they inherit negates the override instead
   (`ApproxNeInt`).
   */
  function ApproxNeDefault(t: IntType, a: int, b: int): (r: Outcome)
    requires InRange(t, a) && InRange(t, b)
    ensures r != Returns(false)
    ensures t.sign == Unsigned ==> r == Returns(true)
  {
    Not(ApproxEqDefault(t, a, b))
  }

  /** The `approx_eq` every integer type installs in place of the default. */
  function ApproxEqInt(t: IntType, a: int, b: int): bool
    requires InRange(t, a) && InRange(t, b)
  {
    a == b
  }

  /**
   The trait's default `approx_ne` for an integer type: it negates
   `self.approx_eq`, which dispatches to the override.
   */
  function ApproxNeInt(t: IntType, a: int, b: int): bool
    requires InRange(t, a) && InRange(t, b)
  {
    !ApproxEqInt(t, a, b)
  }

  /** The comparison does not depend on the order of its operands, panics included. */
  lemma ToleranceSymmetric(t: IntType, a: int, b: int, tolerance: int)
    requires InRange(t, a) && InRange(t, b) && InRange(t, tolerance)
    ensures ApproxEqTolerance(t, a, b, tolerance) == ApproxEqTolerance(t, b, a, tolerance)
    ensures ApproxNeTolerance(t, a, b, tolerance) == ApproxNeTolerance(t, b, a, tolerance)
  {
    assert Distance(a, b) == Distance(b, a);
  }

  /** When the distance is a value of the type, the comparison is exactly |a - b| < tolerance. */
  lemma ToleranceWhenDistanceFits(t: IntType, a: int, b: int, tolerance: int)
    requires InRange(t, a) && InRange(t, b) && InRange(t, tolerance)
    requires InRange(t, Distance(a, b))
    ensures ApproxEqTolerance(t, a, b, tolerance) == Returns(Distance(a, b) < tolerance)
  {
  }

  /** A call panics exactly for a signed type whose operands lie more than `MAX` apart. */
  lemma PanicsExactlyOnSignedOverflow(t: IntType, a: int, b: int, tolerance: int)
    requires InRange(t, a) && InRange(t, b) && InRange(t, tolerance)
    ensures ApproxEqTolerance(t, a, b, tolerance).Panics?
        <==> t.sign == Signed && Distance(a, b) > Max(t)
  {
  }

  /** Every signed type has operands that make the comparison panic, whatever the tolerance. */
  lemma {:induction false} SignedOverflowReachable(t: IntType, tolerance: int)
    requires t.sign == Signed && InRange(t, tolerance)
    ensures exists a, b :: InRange(t, a) && InRange(t, b) && ApproxEqTolerance(t, a, b, tolerance).Panics?
  {
    var a, b := Max(t), Min(t);
    assert InRange(t, a) && InRange(t, b);
    assert Distance(a, b) == Modulus(t.width) - 1;
    assert ApproxEqTolerance(t, a, b, tolerance).Panics?;
  }

  /** `127i8.approx_eq_tolerance(&-128, &1)` panics: 127 - (-128) = 255 is not an i8. */
  lemma I8ExtremesPanic()
    ensures ApproxEqTolerance(I8, 127, -128, 1) == Panics
    ensures ApproxEqTolerance(I8, -128, 127, 1) == Panics
  {
  }

  /** Widening the tolerance keeps approximately equal values approximately equal. */
  lemma ToleranceMonotone(t: IntType, a: int, b: int, tolerance: int, wider: int)
    requires InRange(t, a) && InRange(t, b) && InRange(t, tolerance) && InRange(t, wider)
    requires tolerance <= wider
    requires ApproxEqTolerance(t, a, b, tolerance) == Returns(true)
    ensures ApproxEqTolerance(t, a, b, wider) == Returns(true)
  {
  }

  /** A tolerance of zero or below never reports equality, not even of a value with itself. */
  lemma NonPositiveToleranceNeverEqual(t: IntType, a: int, b: int, tolerance: int)
    requires InRange(t, a) && InRange(t, b) && InRange(t, tolerance)
    requires tolerance <= 0
    ensures ApproxEqTolerance(t, a, b, tolerance) != Returns(true)
    ensures ApproxEqTolerance(t, a, a, tolerance) == Returns(false)
  {
  }

  /** `approx_ne_tolerance` is the negation of `approx_eq_tolerance`. */
  lemma NeToleranceNegates(t: IntType, a: int, b: int, tolerance: int)
    requires InRange(t, a) && InRange(t, b) && InRange(t, tolerance)
    ensures ApproxNeTolerance(t, a, b, tolerance) == Not(ApproxEqTolerance(t, a, b, tolerance))
    ensures ApproxEqTolerance(t, a, b, tolerance) == Returns(true)
        <==> ApproxNeTolerance(t, a, b, tolerance) == Returns(false)
  {
  }

  /** The default `approx_ne` is the negation of the default `approx_eq`. */
  lemma NeDefaultNegates(t: IntType, a: int, b: int)
    requires InRange(t, a) && InRange(t, b)
    ensures ApproxNeDefault(t, a, b) == Not(ApproxEqDefault(t, a, b))
    ensures ApproxNeDefault(t, a, b) == ApproxNeTolerance(t, a, b, 0)
  {
  }

  /**
   The integer override is exact equality, reflexive and symmetric, and
   `approx_ne` inherits it: `approx_ne(a, b) == (a != b)`.
   */
  lemma OverrideIsExactEquality(t: IntType, a: int, b: int)
    requires InRange(t, a) && InRange(t, b)
    ensures ApproxEqInt(t, a, b) <==> a == b
    ensures ApproxEqInt(t, a, a)
    ensures ApproxEqInt(t, a, b) == ApproxEqInt(t, b, a)
    ensures ApproxNeInt(t, a, b) <==> a != b
    ensures ApproxNeInt(t, a, b) == !ApproxEqInt(t, a, b)
  {
  }

  /**
   The override agrees with the generic formula at tolerance one, the
   smallest positive tolerance, wherever that formula returns; unlike the
   formula it never panics.
   */
  lemma OverrideIsToleranceOne(t: IntType, a: int, b: int)
    requires InRange(t, a) && InRange(t, b)
    ensures InRange(t, 1)
    ensures ApproxEqInt(t, a, b) <==> ApproxEqTolerance(t, a, b, 1) == Returns(true)
    ensures ApproxEqTolerance(t, a, b, 1).Returns?
        ==> ApproxEqTolerance(t, a, b, 1).value == ApproxEqInt(t, a, b)
  {
  }

  /**
   For integer types `approx_eq` and `approx_eq_tolerance` part ways: the
   override calls a value equal to itself, the generic formula at the
   default tolerance zero does not.
   */
  lemma OverrideDiffersFromDefault(t: IntType, a: int)
    requires InRange(t, a)
    ensures ApproxEqInt(t, a, a)
    ensures ApproxEqTolerance(t, a, a, 0) == Returns(false)
    ensures ApproxEqDefault(t, a, a) == Returns(false)
  {
  }

  /** `(1u32).approx_eq(&1u32) == true`. */
  lemma OneU32ApproxEqOne()
    ensures ApproxEqInt(U32, 1, 1)
    ensures !ApproxNeInt(U32, 1, 1)
  {
  }
}
