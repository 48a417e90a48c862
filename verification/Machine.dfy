/**
 Fixed-width integers and saturating arithmetic, as the Rust sources use them.
 */
module Machine {

  const U32_MAX: nat := 0xFFFF_FFFF
  const U64_MAX: nat := 0xFFFF_FFFF_FFFF_FFFF
  const I64_MAX: int := 0x7FFF_FFFF_FFFF_FFFF
  const I64_MIN: int := -0x8000_0000_0000_0000

  type u8 = x: nat | x <= 0xFF
  type u32 = x: nat | x <= 0xFFFF_FFFF
  type u64 = x: nat | x <= 0xFFFF_FFFF_FFFF_FFFF
  type i64 = x: int | -0x8000_0000_0000_0000 <= x <= 0x7FFF_FFFF_FFFF_FFFF

  datatype Option<+T> = None | Some(value: T)

  datatype Result<+T, +E> = Ok(value: T) | Err(error: E)

  function Min(a: int, b: int): int {
    if a <= b then a else b
  }

  function Max(a: int, b: int): int {
    if a <= b then b else a
  }

  /** The u32 nearest to an unbounded sum from below. */
  function Saturate(n: nat): u32 {
    if n <= U32_MAX then n else U32_MAX
  }

  /** `u32::saturating_add`. */
  function SatAdd(a: u32, b: u32): u32 {
    Saturate(a + b)
  }

  /** `u32::saturating_sub`. */
  function SatSub(a: u32, b: u32): u32 {
    if a >= b then a - b else 0
  }

  /** `u64::saturating_add`. */
  function SatAdd64(a: u64, b: u64): u64 {
    if a + b <= U64_MAX then a + b else U64_MAX
  }

  /** `u64::saturating_sub`. */
  function SatSub64(a: u64, b: u64): u64 {
    if a >= b then a - b else 0
  }

  /** `i64::saturating_add`. */
  function SatAddI64(a: i64, b: i64): i64 {
    if a + b > I64_MAX then I64_MAX else if a + b < I64_MIN then I64_MIN else a + b
  }
}
