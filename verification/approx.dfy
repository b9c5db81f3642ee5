/**
 The older `Approx` trait for the integer types, whose `approx_eq` and
 `approx_ne` are plain `==` and `!=`.
 */
module ApproxTrait {
  import opened IntTypes
  import ApproxEqTrait

  function ApproxEq(t: IntType, a: int, b: int): bool
    requires InRange(t, a) && InRange(t, b)
  {
    a == b
  }

  function ApproxNe(t: IntType, a: int, b: int): bool
    requires InRange(t, a) && InRange(t, b)
  {
    a != b
  }

  /** `approx_eq` is an equivalence on the values of every integer type. */
  lemma ApproxEqIsEquivalence(t: IntType, a: int, b: int, c: int)
    requires InRange(t, a) && InRange(t, b) && InRange(t, c)
    ensures ApproxEq(t, a, a)
    ensures ApproxEq(t, a, b) == ApproxEq(t, b, a)
    ensures ApproxEq(t, a, b) && ApproxEq(t, b, c) ==> ApproxEq(t, a, c)
    ensures ApproxEq(t, a, b) <==> Distance(a, b) == 0
  {
  }

  /** The two methods written separately are still each other's negation. */
  lemma ApproxNeNegatesApproxEq(t: IntType, a: int, b: int)
    requires InRange(t, a) && InRange(t, b)
    ensures ApproxNe(t, a, b) == !ApproxEq(t, a, b)
    ensures ApproxNe(t, a, b) == ApproxNe(t, b, a)
    ensures !ApproxNe(t, a, a)
  {
  }

  /** On integers the old trait and the `ApproxEq` trait's override give the same answers. */
  lemma AgreesWithApproxEqOverride(t: IntType, a: int, b: int)
    requires InRange(t, a) && InRange(t, b)
    ensures ApproxEq(t, a, b) == ApproxEqTrait.ApproxEqInt(t, a, b)
    ensures ApproxNe(t, a, b) == ApproxEqTrait.ApproxNeInt(t, a, b)
  {
  }

  /** `(1u32).approx_eq(1u32) == true`. */
  lemma OneU32ApproxOne()
    ensures ApproxEq(U32, 1, 1)
    ensures !ApproxNe(U32, 1, 1)
  {
  }
}
