/** Minima and powers. */
module Arithmetic {
  function Min(a: nat, b: nat): (r: nat) {
    if a < b then a else b
  }

  function MinReal(a: real, b: real): (r: real) {
    if a < b then a else b
  }

  function Power(b: nat, e: nat): (r: nat)
    ensures b > 0 ==> r > 0
  {
    if e == 0 then 1 else b * Power(b, e - 1)
  }
}
