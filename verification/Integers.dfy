/** Go's int32: a 32-bit two's complement integer that wraps around. */
module Integers {
  const MAX_INT32 := 0x7FFF_FFFF

  type int32 = x: int | -0x8000_0000 <= x <= MAX_INT32

  /** The int32 that any integer becomes, in a conversion or after an operation. */
  function Int32(n: int): int32 {
    var u := n % 0x1_0000_0000;
    if u <= MAX_INT32 then u else u - 0x1_0000_0000
  }
}
