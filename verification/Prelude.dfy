/** What several modules share: an option, transaction ids, 64-bit bounds, minima and doubling. */
module Prelude {

  datatype Option<+T> = None | Some(value: T)

  type Txid = string

  const U64: nat := 0x1_0000_0000_0000_0000
  const U64_MAX: nat := 0xFFFF_FFFF_FFFF_FFFF

  function Min(a: nat, b: nat): nat { if a < b then a else b }

  function Pow2(n: nat): (p: nat)
    ensures p >= 1
  {
    if n == 0 then 1 else 2 * Pow2(n - 1)
  }
}
