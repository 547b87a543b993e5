/** Machine integers, register-pair arithmetic and the failure-free option type. */
module Types {

  type byte = x: int | 0 <= x < 0x100
  type word = x: int | 0 <= x < 0x10000

  /** The 64K address space of the test memory controller. */
  type Mem = m: seq<byte> | |m| == 0x10000 witness seq(0x10000, i => 0)

  datatype Option<+T> = None | Some(value: T)

  /** `uint16_t` addition: every address and counter wraps at 2^16. */
  function Plus(w: word, n: int): word
    requires -0x10000 <= n <= 0x10000
  {
    if w + n < 0 then w + n + 0x10000
    else if w + n < 0x10000 then w + n
    else w + n - 0x10000
  }

  function Word(hi: byte, lo: byte): word {
    hi * 0x100 + lo
  }

  function Hi(w: word): byte {
    w / 0x100
  }

  function Lo(w: word): byte {
    w % 0x100
  }
}
