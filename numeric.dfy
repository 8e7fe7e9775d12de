/** Machine integer widths that appear in the engine's public signatures. */
module Numeric {
  /** C++ `unsigned int` and `uint32_t`: the window and viewport sizes. */
  type u32 = x: int | 0 <= x < 0x1_0000_0000

  /** C++ `int`: the repeat count of a key press. */
  type i32 = x: int | -0x8000_0000 <= x < 0x8000_0000
}
