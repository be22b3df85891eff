/** Rounding an exact amount to whole units, halves upwards. */
module Rounding {
  function HalfUp(x: real): int { (x + 0.5).Floor }

  lemma FloorIs(x: real, n: int)
    requires n as real <= x < n as real + 1.0
    ensures x.Floor == n
  {
  }
}
