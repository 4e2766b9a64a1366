module Bits {
  /** A condition as a number, for counting. */
  function Bit(b: bool): (n: nat) { if b then 1 else 0 }
}
