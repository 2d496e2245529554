/** The JavaScript number conversions the modelled code relies on. */
module Js {

  /** ToInt32: the signed 32-bit integer with the same low 32 bits as `x`, which every
      bitwise operator applies to its operands and yields as its result. */
  function Int32(x: int): (r: int)
    ensures -0x8000_0000 <= r < 0x8000_0000
    ensures (r - x) % 0x1_0000_0000 == 0
  {
    (x + 0x8000_0000) % 0x1_0000_0000 - 0x8000_0000
  }

  /** The conversion keeps the low five bits, the ones the mappers test and mask. */
  lemma Int32LowBits(x: int)
    ensures Int32(x) % 32 == x % 32
  {
    var t := (Int32(x) - x) / 0x1_0000_0000;
    assert Int32(x) == x + 32 * (0x800_0000 * t);
  }

  /** Values already in the signed 32-bit range are left as they are. */
  lemma Int32InRange(x: int)
    requires -0x8000_0000 <= x < 0x8000_0000
    ensures Int32(x) == x
  {
  }
}
