/** Values that several components share. */
module Common {
  datatype Option<+T> = None | Some(value: T)

  /** A `u32`, the width of the configured windows and of the audit ids. */
  newtype u32 = n: int | 0 <= n < 0x1_0000_0000

  const U32_MAX: u32 := 0xFFFF_FFFF

  /** Instants are nanoseconds of the monotonic clock. */
  const SECOND: nat := 1_000_000_000

  newtype byte = b: int | 0 <= b < 256

  const NUL: char := '\0'

  function Min(a: nat, b: nat): nat {
    if a < b then a else b
  }
}
