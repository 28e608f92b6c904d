/** The two Rust scalar types of the handle's configuration whose width matters. */
module RustTypes {

  /** One past the largest `usize` on a 64-bit target. */
  const UsizeLimit: int := 0x1_0000_0000_0000_0000

  /** Rust's `usize` on a 64-bit target. */
  type Usize = x: int | 0 <= x < UsizeLimit

  /**
   * Rust's `f64`, kept as its IEEE 754 bit pattern. The handle only stores,
   * returns and forwards such values, so nothing but equality is modelled.
   */
  datatype F64 = F64(bits: bv64)

  /** The `f64` literal `10.0`. */
  const TenPointZero: F64 := F64(0x4024_0000_0000_0000)
}
