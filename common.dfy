/** Shared value types: the error-carrying results that replace the Java exceptions,
    and Java's 32-bit `int`. */
module Common {

  /** A computation that either yields a value or fails with an error
      (Java: returns normally, or throws IllegalArgumentException). */
  datatype Result<+T, +E> = Success(value: T) | Failure(error: E)

  /** A check that either passes or fails with an error (Java: a `void` validator). */
  datatype Outcome<+E> = Pass | Fail(error: E)

  const INT32_MIN: int := -0x8000_0000
  const INT32_MAX: int := 0x7FFF_FFFF

  /** Java's `int`. */
  type Int32 = x: int | INT32_MIN <= x <= INT32_MAX

  /** Two's-complement wrap-around of Java `int` arithmetic. */
  function Wrap32(x: int): (r: Int32)
    ensures (r - x) % 0x1_0000_0000 == 0
    ensures INT32_MIN <= x <= INT32_MAX ==> r == x
  {
    (x - INT32_MIN) % 0x1_0000_0000 + INT32_MIN
  }
}
