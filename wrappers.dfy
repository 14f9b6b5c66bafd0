/** Small helper datatypes shared by the other modules. */
module Wrappers {

  /** An optional value: what a symbol lookup or a decoder returns. */
  datatype Option<+T> = None | Some(value: T)

  /** Unsigned integer widths of the C++ source. */
  newtype uint16 = x: int | 0 <= x < 0x1_0000
  newtype uint32 = x: int | 0 <= x < 0x1_0000_0000
  newtype byte = x: int | 0 <= x < 0x100

  /** 2 to the power k. */
  function Pow2(k: nat): (r: nat)
    ensures r >= 1
  {
    if k == 0 then 1 else 2 * Pow2(k - 1)
  }
}
