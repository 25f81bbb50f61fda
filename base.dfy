/** Machine integers, and the option and result types shared by every module. */
module Base {

  /** Number of values of a Rust `u16`. */
  const U16_LIMIT: nat := 0x1_0000

  /** Number of values of a Rust `u32`. */
  const U32_LIMIT: nat := 0x1_0000_0000

  newtype u8 = x: int | 0 <= x < 0x100
  newtype u16 = x: int | 0 <= x < 0x1_0000
  newtype u32 = x: int | 0 <= x < 0x1_0000_0000

  /** Rust's `n as u16`: keeps the low 16 bits, so it wraps modulo 65536. */
  function TruncateU16(n: nat): (r: u16)
    ensures n < U16_LIMIT ==> r as int == n
    ensures r as int < n || n < U16_LIMIT
    ensures (n - r as int) % U16_LIMIT == 0
  {
    (n % U16_LIMIT) as u16
  }

  /** Rust's `n as u32`: keeps the low 32 bits. */
  function TruncateU32(n: nat): (r: u32)
    ensures n < U32_LIMIT ==> r as int == n
    ensures r as int < n || n < U32_LIMIT
    ensures (n - r as int) % U32_LIMIT == 0
  {
    (n % U32_LIMIT) as u32
  }

  datatype Option<+T> = None | Some(value: T)

  /** `Err` stands for a panic of the source, which aborts the program. */
  datatype Result<+T, +E> = Ok(value: T) | Err(error: E)
}
