/** Fixed-width integer types of the source, as subsets of the unbounded integers. */
module Ints {
  /** Rust `i8`: the type of a coordinate's row and column. */
  type I8 = x: int | -128 <= x < 128

  /** Rust `u16`: terminal dimensions and the engine's count of moves played. */
  type U16 = x: int | 0 <= x < 0x1_0000
}
