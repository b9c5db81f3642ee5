/**
 The ten primitive integer types the comparison traits are implemented for
 (u8, u16, u32, u64, usize, i8, i16, i32, i64, isize), as ranges of unbounded
 integers, together with the two meanings Rust gives to `-` on them: the
 checked subtraction of a debug build (overflow panics) and the wrap-around
 subtraction of a release build.
 */
module IntTypes {

  datatype Option<T> = None | Some(value: T)

  datatype Signedness = Unsigned | Signed

  /** The target's pointer width, which fixes the width of usize and isize. */
  datatype PointerWidth = Ptr16 | Ptr32 | Ptr64

  datatype Width = W8 | W16 | W32 | W64 | WSize(pointer: PointerWidth)

  datatype IntType = IntType(sign: Signedness, width: Width)

  const U8 := IntType(Unsigned, W8)
  const U16 := IntType(Unsigned, W16)
  const U32 := IntType(Unsigned, W32)
  const U64 := IntType(Unsigned, W64)
  const I8 := IntType(Signed, W8)
  const I16 := IntType(Signed, W16)
  const I32 := IntType(Signed, W32)
  const I64 := IntType(Signed, W64)

  function Usize(p: PointerWidth): IntType { IntType(Unsigned, WSize(p)) }
  function Isize(p: PointerWidth): IntType { IntType(Signed, WSize(p)) }

  /** Number of distinct values of a width: 2 to the power of its bit count. */
  function Modulus(w: Width): nat {
    match w
    case W8 => 0x100
    case W16 => 0x1_0000
    case W32 => 0x1_0000_0000
    case W64 => 0x1_0000_0000_0000_0000
    case WSize(p) =>
      match p
      case Ptr16 => 0x1_0000
      case Ptr32 => 0x1_0000_0000
      case Ptr64 => 0x1_0000_0000_0000_0000
  }

  function Min(t: IntType): int {
    if t.sign == Unsigned then 0 else -(Modulus(t.width) / 2)
  }

  function Max(t: IntType): int {
    if t.sign == Unsigned then Modulus(t.width) - 1 else Modulus(t.width) / 2 - 1
  }

  /** `x` is a value of the Rust type `t`. */
  predicate InRange(t: IntType, x: int) {
    Min(t) <= x <= Max(t)
  }

  /**
   The ranges agree with Rust's `MIN` and `MAX` constants of the ten types
   (`usize` and `isize` for each pointer width).
   */
  lemma RangesMatchRustConstants(p: PointerWidth)
    ensures Min(U8) == 0 && Max(U8) == 255
    ensures Min(U16) == 0 && Max(U16) == 65535
    ensures Min(U32) == 0 && Max(U32) == 4294967295
    ensures Min(U64) == 0 && Max(U64) == 18446744073709551615
    ensures Min(I8) == -128 && Max(I8) == 127
    ensures Min(I16) == -32768 && Max(I16) == 32767
    ensures Min(I32) == -2147483648 && Max(I32) == 2147483647
    ensures Min(I64) == -9223372036854775808 && Max(I64) == 9223372036854775807
    ensures Min(Usize(p)) == 0 && Max(Usize(p)) == Max(UnsignedOf(Isize(p)))
    ensures Min(Isize(p)) == -Max(Isize(p)) - 1
    ensures p == Ptr64 ==> Max(Usize(p)) == Max(U64) && Max(Isize(p)) == Max(I64)
    ensures p == Ptr32 ==> Max(Usize(p)) == Max(U32) && Max(Isize(p)) == Max(I32)
    ensures p == Ptr16 ==> Max(Usize(p)) == Max(U16) && Max(Isize(p)) == Max(I16)
  {
  }

  /** The unsigned type of the same width (`i8` to `u8`, `isize` to `usize`). */
  function UnsignedOf(t: IntType): (u: IntType)
    ensures u.sign == Unsigned && u.width == t.width
  {
    IntType(Unsigned, t.width)
  }

  function Abs(x: int): int {
    if x < 0 then -x else x
  }

  /** The mathematical distance between two values, |a - b|. */
  function Distance(a: int, b: int): int {
    Abs(a - b)
  }

  /**
   Rust's `checked_sub`: the difference when it is a value of `t`, otherwise
   `None`. A debug build's `a - b` panics exactly when this is `None`.
   */
  function CheckedSub(t: IntType, a: int, b: int): Option<int> {
    if InRange(t, a - b) then Some(a - b) else None
  }

  /**
   Reduction of an unbounded integer to the type `t` modulo 2^bits, as
   Rust's `wrapping_sub` and `as` casts do.
   */
  function Wrap(t: IntType, x: int): (r: int)
    ensures InRange(t, r)
    ensures (r - x) % Modulus(t.width) == 0
    ensures InRange(t, x) ==> r == x
  {
    Min(t) + (x - Min(t)) % Modulus(t.width)
  }

  /** A release build's `a - b`: the difference wrapped into the type. */
  function WrappingSub(t: IntType, a: int, b: int): (r: int)
    ensures InRange(t, r)
    ensures InRange(t, a - b) ==> r == a - b
  {
    Wrap(t, a - b)
  }

  /** Subtracting the smaller value from the larger never underflows an unsigned type. */
  lemma LargerMinusSmallerFitsUnsigned(t: IntType, a: int, b: int)
    requires t.sign == Unsigned
    requires InRange(t, a) && InRange(t, b)
    ensures a > b ==> CheckedSub(t, a, b) == Some(a - b)
    ensures !(a > b) ==> CheckedSub(t, b, a) == Some(b - a)
  {
  }

  /** Subtracting in the other order does underflow whenever the values differ. */
  lemma SmallerMinusLargerUnderflowsUnsigned(t: IntType, a: int, b: int)
    requires t.sign == Unsigned
    requires InRange(t, a) && InRange(t, b)
    ensures a < b <==> CheckedSub(t, a, b) == None
  {
  }

  /** The distance of two values of any type is a value of its unsigned counterpart. */
  lemma DistanceFitsUnsignedOf(t: IntType, a: int, b: int)
    requires InRange(t, a) && InRange(t, b)
    ensures InRange(UnsignedOf(t), Distance(a, b))
  {
  }
}
