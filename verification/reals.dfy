/** Absolute values of reals. */
module Reals {

  function Magnitude(x: real): (m: real)
    ensures m >= 0.0
  {
    if x < 0.0 then -x else x
  }

  function Distance(x: real, y: real): real {
    if x <= y then y - x else x - y
  }

  /** Products under a name, so that equal factors give equal products without nonlinear search. */
  function Product(x: real, y: real): real {
    x * y
  }
}
