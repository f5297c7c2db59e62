/** The fixed-width integer types the records carry; they are only copied. */
module Integers {

  /** A C++ `int` (32-bit, signed). */
  newtype Int32 = x: int | -0x8000_0000 <= x < 0x8000_0000

  /** An `XnUserID` (32-bit, unsigned). */
  newtype UserId = x: int | 0 <= x < 0x1_0000_0000
}
