/** Rounding to integers. */
module Rounding {

  /** Nearest integer, ties away from zero: PDL's ROUND and C's lround. */
  function Round(x: real): (n: int)
    ensures n as real - 0.5 <= x <= n as real + 0.5
  {
    if x >= 0.0 then (x + 0.5).Floor else -((0.5 - x).Floor)
  }

  lemma {:induction false} RoundOfInt(n: int)
    ensures Round(n as real) == n
  {
    assert n >= 0 ==> (n as real + 0.5).Floor == n;
    assert n < 0 ==> (0.5 - n as real).Floor == -n;
  }

  lemma {:induction false} RoundIsMonotone(x: real, y: real)
    requires x <= y
    ensures Round(x) <= Round(y)
  {
    assert (x + 0.5).Floor <= (y + 0.5).Floor && (0.5 - y).Floor <= (0.5 - x).Floor;
    assert x < 0.0 <= y ==> (0.5 - x).Floor >= 0 && (y + 0.5).Floor >= 0;
  }
}
