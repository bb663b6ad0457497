/** Fixed-width numbers, and the outcome of sending. */
module Words {
  type uint8 = x: int | 0 <= x < 0x100
  type uint16 = x: int | 0 <= x < 0x1_0000
  type int32 = x: int | -0x8000_0000 <= x < 0x8000_0000
  type uint64 = x: int | 0 <= x < 0x1_0000_0000_0000_0000

  function Next16(x: uint16): uint16 { (x + 1) % 0x1_0000 }

  function Before16(x: uint16): uint16 { (x - 1) % 0x1_0000 }

  /** Subtraction of 64-bit times. */
  function Minus(a: uint64, b: uint64): uint64 { (a - b) % 0x1_0000_0000_0000_0000 }

  /** What becomes of a message given to the network. */
  datatype Outcome = Sent | SentWithoutTimestamp(ts: uint64) | Failed
}
