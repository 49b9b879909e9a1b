/** Integer helpers shared by the calculator and the blog pagination. */
module Ints {

  /** `Math.min` on two integers. */
  function Min(a: int, b: int): (m: int)
    ensures m <= a && m <= b
    ensures m == a || m == b
  {
    if a <= b then a else b
  }
}
