/** Fixed-width integer types of the source, as subsets of `int`. */
module Ints {

  newtype byte = x: int | 0 <= x < 0x100
  newtype u16 = x: int | 0 <= x < 0x1_0000
  newtype u32 = x: int | 0 <= x < 0x1_0000_0000
  newtype i32 = x: int | -0x8000_0000 <= x < 0x8000_0000

  /**
   * Two's-complement wrap-around of an integer to `i32`: the `i32` congruent to `x`
   * modulo 2^32, which is `x` itself when `x` fits.
   */
  function Wrap32(x: int): (w: i32)
    ensures -0x8000_0000 <= x < 0x8000_0000 ==> w as int == x
    ensures (x - w as int) % 0x1_0000_0000 == 0
  {
    var r := x % 0x1_0000_0000;
    if r >= 0x8000_0000 then (r - 0x1_0000_0000) as i32 else r as i32
  }

  /** A string holding NUL cannot become a C string (`CString::new` fails on it). */
  predicate HasNul(s: string) {
    '\0' in s
  }
}
