/** Failure-compatible wrappers and the fixed-width integer types of the Rust code. */
module Base {

  /** Rust's `Option<T>`. */
  datatype Option<+T> = None | Some(value: T) {
    /** `Option::unwrap_or` */
    function GetOr(default: T): T {
      match this
      case Some(v) => v
      case None => default
    }
  }

  /** Rust's `Result<T, E>` (`anyhow::Result` when `E` is a message). */
  datatype Result<+T, +E> = Ok(value: T) | Err(error: E)

  const U32_MODULUS: int := 0x1_0000_0000
  const U64_MODULUS: int := 0x1_0000_0000_0000_0000

  /** `usize` on a 64-bit target. */
  const USIZE_MODULUS: int := U64_MODULUS
  const USIZE_MAX: int := USIZE_MODULUS - 1

  type u32 = x: int | 0 <= x < U32_MODULUS
  type u64 = x: int | 0 <= x < U64_MODULUS
  type usize = x: int | 0 <= x < USIZE_MODULUS
  type i64 = x: int | -0x8000_0000_0000_0000 <= x < 0x8000_0000_0000_0000
}
