/** Plain Option and Result datatypes shared by the modules of this model: `Option`
    stands for a pointer that may be NULL, `Result` for a call that may fail
    with an error value. */
module Wrappers {

  datatype Option<+T> = None | Some(value: T)

  datatype Result<+T, +E> = Ok(value: T) | Err(error: E)
}

/** Fixed-width unsigned integers of the C source, as ranges of `int`. */
module MachineInts {

  const U32_LIMIT: int := 0x1_0000_0000
  const U64_LIMIT: int := 0x1_0000_0000_0000_0000

  type u32 = x: int | 0 <= x < U32_LIMIT
  type u64 = x: int | 0 <= x < U64_LIMIT

  /** C `a + b` on two `u32` values: the sum wraps around modulo 2^32. */
  function AddU32(a: u32, b: u32): (r: u32)
    ensures a + b < U32_LIMIT ==> r == a + b
    ensures a + b >= U32_LIMIT ==> r == a + b - U32_LIMIT && r < a && r < b
  {
    (a + b) % U32_LIMIT
  }

  /** C `a + b` on two `u64` values: the sum wraps around modulo 2^64. */
  function AddU64(a: u64, b: u64): (r: u64)
    ensures a + b < U64_LIMIT ==> r == a + b
    ensures a + b >= U64_LIMIT ==> r == a + b - U64_LIMIT && r < a && r < b
  {
    (a + b) % U64_LIMIT
  }
}
