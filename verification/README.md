# Approximate equality on Rust's integer types

A Dafny model of the integer side of the `approx` library. The library has two traits.

- `ApproxEq` (src/approx_eq.rs) has four default methods. `approx_eq_tolerance(a, b, t)` subtracts the smaller operand from the larger and asks whether the difference is strictly below `t`. `approx_eq` calls it with tolerance `Zero::zero()`. `approx_ne` and `approx_ne_tolerance` negate `approx_eq` and `approx_eq_tolerance`. Each of the ten integer types overrides `approx_eq` with `==`.
- `Approx` (src/approx.rs) is the older trait. For integers its `approx_eq` is `==` and its `approx_ne` is `!=`.

The ten types (`u8`, `u16`, `u32`, `u64`, `usize`, `i8`, `i16`, `i32`, `i64`, `isize`) are one `IntType` value each. An `IntType` is a signedness plus a width. The width of `usize` and `isize` depends on the target's pointer width (16, 32 or 64 bits). A value of a type is an unbounded `int` that lies in the type's range (`InRange`). The `macro_rules!` copies become a single function that takes the type as a parameter.

Rust's `-` on integers has two meanings:

- In a debug build, an overflowing subtraction panics. `ApproxEqTrait` models this: a call's `Outcome` is either `Returns(b)` or `Panics`.
- In a release build, the subtraction wraps around. `ReleaseBuild` models this.

Subtracting the smaller operand from the larger is what keeps unsigned types from underflowing. For a signed type the difference can still overflow, for example `127i8 - (-128i8)`. In that case the debug build panics. The release build wraps around instead, and for any tolerance of zero or more it then reports the type's largest and smallest values as approximately equal (see Findings). Every method returns `bool`, and nothing in the crate mentions a panic. The model proves exactly when the code panics.

Files:

- `int_types.dfy`: the types, their ranges, checked and wrapping subtraction.
- `approx_eq.dfy`: the `ApproxEq` trait.
- `approx.dfy`: the `Approx` trait.
- `release_build.dfy`: `approx_eq_tolerance` with wrap-around subtraction.
- `corrected.dfy`: a corrected comparison that never overflows.

## Model

| member | source | states |
|---|---|---|
| IntTypes.LargerMinusSmallerFitsUnsigned | src/approx_eq.rs:22-26 | for an unsigned type, whichever subtraction the ordering picks (`a - b` when `a > b`, else `b - a`) has a difference that is a value of the type, so it never underflows |
| IntTypes.SmallerMinusLargerUnderflowsUnsigned | src/approx_eq.rs:22-26 | for an unsigned type, subtracting in the other order underflows exactly when `a < b`, which is why the ordering is needed |
| ApproxEqTrait.ApproxEqTolerance | src/approx_eq.rs:17-27 | a call panics exactly when \|a - b\| is not a value of the type; otherwise it returns \|a - b\| < tolerance; on unsigned types it never panics |
| ApproxEqTrait.ApproxNeTolerance | src/approx_eq.rs:28-31 | panics exactly when `approx_eq_tolerance` does; otherwise returns \|a - b\| >= tolerance |
| ApproxEqTrait.ApproxEqDefault | src/approx_eq.rs:8-11 | for an implementor that keeps the default `approx_eq` (none of the ten integer types does), the call with tolerance zero never returns true, and on unsigned types it returns false |
| ApproxEqTrait.ApproxNeDefault | src/approx_eq.rs:12-15 | for an implementor that keeps both default methods (none of the ten integer types does; theirs negates the `==` override), `approx_ne` never returns false, and on unsigned types it returns true |
| ApproxEqTrait.ToleranceSymmetric | src/approx_eq.rs:18-27 | swapping the operands changes neither `approx_eq_tolerance` nor `approx_ne_tolerance`, panics included |
| ApproxEqTrait.ToleranceWhenDistanceFits | src/approx_eq.rs:22-26 | with the precondition that \|a - b\| is a value of the type, the call returns exactly \|a - b\| < tolerance |
| ApproxEqTrait.PanicsExactlyOnSignedOverflow | src/approx_eq.rs:22-26 | a call panics if and only if the type is signed and the operands lie more than `MAX` apart |
| ApproxEqTrait.SignedOverflowReachable | src/approx_eq.rs:22-26 | every signed type, under every tolerance, has a pair of operands that makes the call panic |
| ApproxEqTrait.I8ExtremesPanic | src/approx_eq.rs:23-25 | `127i8.approx_eq_tolerance(&-128, &1)` panics, in either operand order |
| ApproxEqTrait.ToleranceMonotone | src/approx_eq.rs:22-26 | if the values are approximately equal under some tolerance, they stay so under any wider tolerance |
| ApproxEqTrait.NonPositiveToleranceNeverEqual | src/approx_eq.rs:23-25 | a tolerance of zero or below never yields true; comparing a value with itself returns false |
| ApproxEqTrait.NeToleranceNegates | src/approx_eq.rs:28-31 | `approx_ne_tolerance` is the negation of `approx_eq_tolerance`: one returns true exactly when the other returns false |
| ApproxEqTrait.NeDefaultNegates | src/approx_eq.rs:12-15 | the default `approx_ne` is the negation of the default `approx_eq`, which is `approx_ne_tolerance` at tolerance zero |
| IntTypes.RangesMatchRustConstants | src/approx_eq.rs:45-55 | the ranges of the ten types are those of Rust's `MIN` and `MAX`, with `usize` and `isize` following the pointer width |
| ApproxEqTrait.OverrideIsExactEquality | src/approx_eq.rs:34-55 | for every integer type the overriding `approx_eq` is `a == b`, so it is reflexive and symmetric; the inherited `approx_ne` is `a != b` |
| ApproxEqTrait.OverrideIsToleranceOne | src/approx_eq.rs:18-41 | the override is true exactly when the generic formula at tolerance one returns true; wherever that formula returns, the two agree |
| ApproxEqTrait.OverrideDiffersFromDefault | src/approx_eq.rs:8-41 | on integer types, `approx_eq(a, a)` is true while `approx_eq_tolerance(a, a, 0)` returns false, and so does the default `approx_eq` it replaces |
| ApproxEqTrait.OneU32ApproxEqOne | src/approx_eq.rs:74 | `(1u32).approx_eq(&1u32)` is true and `approx_ne` is false |
| ApproxTrait.ApproxEqIsEquivalence | src/approx.rs:10-30 | for every integer type `Approx::approx_eq` is reflexive, symmetric and transitive, and holds exactly when \|a - b\| = 0 |
| ApproxTrait.ApproxNeNegatesApproxEq | src/approx.rs:14-15 | `Approx::approx_ne` is the negation of `Approx::approx_eq`, is symmetric, and is false for equal operands |
| ApproxTrait.AgreesWithApproxEqOverride | src/approx.rs:10-18 | on every integer type, `Approx::approx_eq` and `approx_ne` give the same answers as `ApproxEq`'s overriding `approx_eq` and its `approx_ne` |
| ApproxTrait.OneU32ApproxOne | src/approx.rs:55 | `(1u32).approx_eq(1u32)` is true and `approx_ne` is false |
| ReleaseBuild.ReleaseApproxEqTolerance | src/approx_eq.rs:17-27 | with wrap-around subtraction the result is \|a - b\| < tolerance whenever the distance fits the type, and it matches the debug build wherever that build returns |
| ReleaseBuild.ReleaseComparesWrappedDistance | src/approx_eq.rs:22-26 | where the debug build would panic, the release build compares \|a - b\| - 2^bits, a negative number, with the tolerance |
| ReleaseBuild.ReleaseMisjudgesExtremes | src/approx_eq.rs:22-26 | in a release build, the maximum and minimum of every signed type count as approximately equal under every non-negative tolerance, although their distance is at least the tolerance |
| ReleaseBuild.I8ExtremesReleaseEqual | src/approx_eq.rs:23 | in a release build, `127i8.approx_eq_tolerance(&-128, &1)` is true although the distance is 255 |
| CorrectedComparison.AbsDiffApproxEqTolerance | src/approx_eq.rs:17-27 | the corrected comparison never panics and holds exactly when \|a - b\| < tolerance, for every integer type and every tolerance |
| CorrectedComparison.AbsDiffAgreesWhereSourceReturns | src/approx_eq.rs:17-27 | the corrected comparison gives the source's answer wherever the source returns, and on unsigned types it gives that answer for every input |
| CorrectedComparison.AbsDiffSymmetricMonotone | src/approx_eq.rs:18-27 | the corrected comparison is symmetric and monotone in the tolerance |
| CorrectedComparison.I8ExtremesAbsDiffNotEqual | src/approx_eq.rs:17-27 | the corrected comparison rejects 127 and -128 at tolerances 1 and 127, and accepts 127 and 126 at tolerance 2 |

## Left out

- The `f32` and `f64` impls of both traits (src/approx_eq.rs:57-68, src/approx.rs:32-49) and the `PI / PI` test assertions. These rely on IEEE 754 rounding, `EPSILON`, NaN and infinities, which Dafny's `real` does not represent.
- The external `Zero` and `Abs` traits. Zero is modelled as the literal `0`, and `abs` is used only by the float impls.
- `Clone`, references and `#[inline]`: they do not change any result.
- The `macro_rules!` expansion: one function parameterised by `IntType` stands for the ten generated impls.
- Test harness wiring (`#[test]`): only the integer assertions are kept, as lemmas.
- Build profiles: the `overflow-checks` setting chooses between `ApproxEqTrait` (panic) and `ReleaseBuild` (wrap). Both are modelled, but the model does not describe how the choice is made.
- ApproxEqTrait.ApproxEqInt, ApproxEqTrait.ApproxNeInt, ApproxTrait.ApproxEq, ApproxTrait.ApproxNe: each is `==` or `!=`. They have no contract of their own because it would repeat the body. The lemmas in the table state their properties.

## Findings

| source | as written | input that shows it | evidently intended | confidence | as-written member | corrected member |
|---|---|---|---|---|---|---|
| src/approx_eq.rs:22-26 | in a debug build, `a - b` with `a > b` overflows a signed type and the call panics | `127i8.approx_eq_tolerance(&-128, &1)` | a total comparison that returns \|a - b\| < tolerance, with the difference taken in the unsigned type of the same width | medium, not executed | ApproxEqTrait.I8ExtremesPanic | CorrectedComparison.AbsDiffApproxEqTolerance |
| src/approx_eq.rs:22-26 | in a release build, the same overflow wraps to -1, and -1 < 1 returns true | `127i8.approx_eq_tolerance(&-128, &1)` returns true although the values are 255 apart | false for these operands: \|a - b\| < tolerance | medium, not executed | ReleaseBuild.I8ExtremesReleaseEqual | CorrectedComparison.AbsDiffApproxEqTolerance |
