/** The machine integers of the daemon, with the wrap-around the C++ types have written out. */
module FixedWidth {
  const TWO_TO_THE_64 := 0x1_0000_0000_0000_0000

  type uint8 = x: int | 0 <= x < 0x100
  type uint16 = x: int | 0 <= x < 0x1_0000
  type uint32 = x: int | 0 <= x < 0x1_0000_0000
  type uint64 = x: int | 0 <= x < TWO_TO_THE_64

  /** uint64_t addition. */
  function Add64(a: uint64, b: uint64): uint64 {
    if a + b < TWO_TO_THE_64 then a + b else a + b - TWO_TO_THE_64
  }

  /** uint64_t subtraction: wraps to a huge value when b > a. */
  function Sub64(a: uint64, b: uint64): uint64 {
    if a >= b then a - b else a - b + TWO_TO_THE_64
  }

  /** A millisecond setting of the configuration file, in microseconds. */
  function Micros(ms: uint32): uint64 {
    ms * 1000
  }
}
