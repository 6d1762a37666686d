/** The value ranges of the .NET integer types the plugin's data uses. */
module Clr {
  /** System.UInt16 (C# `ushort`). */
  type u16 = x: int | 0 <= x < 0x1_0000

  const MinInt32: int := -0x8000_0000
  const MaxInt32: int := 0x7FFF_FFFF

  /** System.Int32 (C# `int`). */
  type i32 = x: int | MinInt32 <= x <= MaxInt32
}
