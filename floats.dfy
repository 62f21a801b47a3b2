/**
 * The floating-point primitives of the mesh code. Doubles are carried as
 * `real` values, but every floating-point operation the program performs on
 * them is an abstract function supplied in a `FloatOps` record, so nothing
 * here assumes that double arithmetic obeys the laws of real arithmetic.
 */
module Floats {
  /** `M_PI` as the C math header spells it. */
  const M_PI: real := 3.14159265358979323846

  /**
   * The double-precision operations of the program, each rounding in its
   * own (unspecified) way: `+`, `*`, `/`, `std::sqrt`, `std::atan2`, `cos`,
   * `sin`, and `toFloat`, the narrowing of a double to the single-precision
   * storage of a default `vtkPoints` object.
   */
  datatype FloatOps = FloatOps(
    add: (real, real) -> real,
    mul: (real, real) -> real,
    div: (real, real) -> real,
    sqrt: real -> real,
    atan2: (real, real) -> real,
    cos: real -> real,
    sin: real -> real,
    toFloat: real -> real)
}
