/** Helpers shared by the model: Python's floor division, a 0/1 count of a flag, and an Option type. */
module Util {

  datatype Option<T> = None | Some(value: T)

  /** Python's `a // b`: the quotient rounded toward minus infinity (Python raises on `b == 0`). */
  function FloorDiv(a: int, b: int): (q: int)
    requires b != 0
    ensures b > 0 ==> q * b <= a < q * b + b
    ensures b < 0 ==> q * b + b < a <= q * b
  {
    if b > 0 then a / b else (-a) / (-b)
  }

  /** 1 for true, 0 for false. */
  function Bit(b: bool): nat
  {
    if b then 1 else 0
  }
}
