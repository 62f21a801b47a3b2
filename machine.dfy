/**
 * Machine integers used by the mesh code: indices and tags are `size_t` /
 * `unsigned long` (64 bits on the target), snapshot numbers are
 * `unsigned int`, and VTK stores point ids as signed 64-bit values.
 */
module Machine {
  const TWO_32: int := 0x1_0000_0000
  const TWO_63: int := 0x8000_0000_0000_0000
  const TWO_64: int := 0x1_0000_0000_0000_0000

  /** `std::size_t` and `unsigned long` on a 64-bit target. */
  type UInt64 = x: int | 0 <= x < 0x1_0000_0000_0000_0000

  /** `unsigned int`. */
  type UInt32 = x: int | 0 <= x < 0x1_0000_0000

  /** Unsigned 64-bit subtraction: wraps around modulo 2^64. */
  function SubU64(a: UInt64, b: UInt64): (r: UInt64)
    ensures a >= b ==> r == a - b
    ensures a < b ==> r == TWO_64 + a - b
  {
    (a - b) % TWO_64
  }

  /**
   * The implicit conversion of an `unsigned long` to VTK's signed 64-bit id
   * type: values from 2^63 on wrap to negative ids, so a wrapped tag of 0
   * reaches VTK as id -1.
   */
  function ToIdType(u: UInt64): (r: int)
    ensures -TWO_63 <= r < TWO_63
    ensures u < TWO_63 ==> r == u
    ensures u >= TWO_63 ==> r == u - TWO_64 && r < 0
    ensures u == TWO_64 - 1 ==> r == -1
  {
    if u < TWO_63 then u else u - TWO_64
  }
}
