/** Numbers shared by the models. */
module Arithmetic {

  type Byte = x: int | 0 <= x < 256

  function PowerOfTwo(k: nat): (r: nat)
    ensures r >= 1
  {
    if k == 0 then 1 else 2 * PowerOfTwo(k - 1)
  }
}
