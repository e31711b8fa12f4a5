/** Fixed-width integers of the native engine's C interface. */
module NativeInts {

  const U32_LIMIT: int := 0x1_0000_0000
  const I32_LIMIT: int := 0x8000_0000

  newtype u32 = x: int | 0 <= x < 0x1_0000_0000
  newtype i32 = x: int | -0x8000_0000 <= x < 0x8000_0000

  const U32_MAX: u32 := 0xFFFF_FFFF

  /** Rust's `x as i32` on a `u32`: the same 32 bits read as two's complement. */
  function AsI32(x: u32): (r: i32)
    ensures (r as int - x as int) % U32_LIMIT == 0
    ensures x as int < I32_LIMIT ==> r as int == x as int
    ensures x as int >= I32_LIMIT ==> r < 0
  {
    if x as int < I32_LIMIT then x as int as i32 else (x as int - U32_LIMIT) as i32
  }
}
