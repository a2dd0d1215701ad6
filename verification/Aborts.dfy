/** The one-byte abort codes of the USDO and secure layers. */
module Aborts {
  import opened Bytes

  const NO_ABORT: byte := 0x00
  const BAD_CMD: byte := 0x13
  const SEG_COUNTER: byte := 0x14
  const DATA_SIZE: byte := 0x15
  const SESSION_ID: byte := 0x21
  const NO_OBJECT: byte := 0x33
  const TYPE_MISMATCH: byte := 0x36
  const LEN_TOO_HIGH: byte := 0x37
  const LEN_TOO_LOW: byte := 0x38
  const INTERNAL: byte := 0x60
  const DEVICE_STATE: byte := 0x62
  const TAG_VERIFY: byte := 0xC0
  const SIG_VERIFY: byte := 0xC1
  const VOUCHER: byte := 0xC2
  const ROLE_DENIED: byte := 0xC3
  const KEY_ID: byte := 0xC4
  const NO_SESSION: byte := 0xC5
  const POLL_COUNTER: byte := 0xC6
  const KEY_BUDGET: byte := 0xC7
  const NOT_BUILT: byte := 0xC8

  /** 37h when too long, 38h when too short, 36h otherwise. */
  function LengthAbort(got: int, want: int): byte {
    if got > want then LEN_TOO_HIGH else if got < want then LEN_TOO_LOW else TYPE_MISMATCH
  }
}
