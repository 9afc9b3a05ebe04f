/** 32-bit words, as JavaScript's `>>> 0` makes them. */
module Words {
  const TWO_32 := 0x1_0000_0000

  /** `x >>> 0`. */
  function ToUint32(x: int): (r: nat)
    ensures r < TWO_32
  {
    x % TWO_32
  }
}
