/** The fixed-width integers the wire and domain records carry. */
module Ints {

  /** A signed 32-bit integer: every wire enum ordinal is one. */
  newtype i32 = x: int | -0x8000_0000 <= x < 0x8000_0000

  /** An unsigned 64-bit integer: the vote counts. */
  newtype u64 = x: int | 0 <= x < 0x1_0000_0000_0000_0000
}
