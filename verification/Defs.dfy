/** Shared constants, machine widths and failure datatypes (src/defs.rs, src/errors.rs). */
module Defs {

  const QUOTE_UPDATE_RETRY_PERIOD_MSEC: nat := 10
  const WRITE_TIMEOUT_MS: nat := 1000
  const CLIENT_KEEP_ALIVE_SEC: nat := 5
  const TCP_CONNECTION_TICK_PERIOD_MSEC: nat := 200

  const U32_BOUND: nat := 0x1_0000_0000
  const U64_BOUND: nat := 0x1_0000_0000_0000_0000

  type u32 = x: nat | x < 0x1_0000_0000
  type u64 = x: nat | x < 0x1_0000_0000_0000_0000

  datatype Option<+T> = None | Some(value: T)

  datatype Result<+T, +E> = Ok(value: T) | Err(error: E)
}
