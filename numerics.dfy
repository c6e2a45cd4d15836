/** Real-number helpers shared by the model.
    Doubles are modelled as `real`; the C library's transcendental functions
    are kept uninterpreted by passing them around as a record of closures. */
module Numerics {

  /** The transcendental functions the pricer calls (`std::sqrt`, `std::exp`,
      `std::log`, `pow`). Nothing is assumed about them. */
  datatype Libm = Libm(
    sqrt: real -> real,
    exp: real -> real,
    log: real -> real,
    pow: (real, real) -> real)

  /** `std::max` on two doubles: the larger of the two. */
  function Max(a: real, b: real): (m: real)
    ensures m >= a && m >= b
    ensures m == a || m == b
  {
    if a < b then b else a
  }

  datatype Option<+T> = None | Some(value: T)
}
