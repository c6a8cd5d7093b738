/** Machine-level value types of the engine: Rust's `usize` and `u32`
    as bounded integers, and `f32` as an uninterpreted 32-bit pattern.
    The model never does floating-point arithmetic; an `f32` is only
    stored, copied and compared for identity. */
module Prims {

  /** One past the largest `usize` on a 64-bit target. */
  const USIZE_LIMIT: int := 0x1_0000_0000_0000_0000

  /** One past the largest `u32`. */
  const U32_LIMIT: int := 0x1_0000_0000

  type Usize = n: int | 0 <= n < USIZE_LIMIT

  type U32 = n: int | 0 <= n < U32_LIMIT

  /** An `f32` value, identified by its IEEE 754 bit pattern. */
  datatype F32 = F32(bits: bv32)

  /** `0.0f32` */
  const F32_ZERO: F32 := F32(0x0000_0000)

  /** `3.0f32` */
  const F32_THREE: F32 := F32(0x4040_0000)

  /** The `as u32` cast of Rust: keeps the low 32 bits of the value. */
  function AsU32(n: Usize): (r: U32)
    ensures n < U32_LIMIT ==> r == n
    ensures (n - r) % U32_LIMIT == 0
  {
    n % U32_LIMIT
  }

  datatype Result<+R, +E> = Success(value: R) | Failure(error: E)
}
