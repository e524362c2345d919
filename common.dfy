/** Fixed-width integers of the target (a 32-bit microcontroller) as subsets of `int`,
    and the Option type used for operations that panic on some inputs. */
module Common {

  /** An unsigned 8-bit byte (`u8`). */
  type Byte = x: int | 0 <= x < 0x100

  /** A signed 16-bit PCM sample (`i16`). */
  type I16 = x: int | -0x8000 <= x < 0x8000

  /** A signed 32-bit word (`i32`). */
  type I32 = x: int | -0x8000_0000 <= x < 0x8000_0000

  /** An unsigned 32-bit word (`u32`), the width of the serial data register. */
  type U32 = x: int | 0 <= x < 0x1_0000_0000

  datatype Option<+T> = None | Some(value: T)

  /** Two's-complement wrap-around of an integer into the `i32` range. */
  function WrapI32(v: int): (r: I32)
    ensures (r - v) % 0x1_0000_0000 == 0
    ensures -0x8000_0000 <= v < 0x8000_0000 ==> r == v
  {
    (v + 0x8000_0000) % 0x1_0000_0000 - 0x8000_0000
  }

  /** The bit pattern of an `i32` read as a `u32` (Rust's `x as u32`): the one `u32` with the
      same 32-bit pattern. */
  function AsU32(x: I32): (r: U32)
    ensures (r - x) % 0x1_0000_0000 == 0
  {
    if x < 0 then x + 0x1_0000_0000 else x
  }
}
