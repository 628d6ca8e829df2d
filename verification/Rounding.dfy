/** math.Round and math.Ceil of the Go library, in exact arithmetic. */
module Rounding {

  /** To the nearest integer, halves away from zero. */
  function Round(x: real): int {
    if x >= 0.0 then (x + 0.5).Floor else -((0.5 - x).Floor)
  }

  function Ceil(x: real): int {
    -((-x).Floor)
  }

  /** An integer bound on what is rounded is a bound on the rounded value, up to half a unit. */
  lemma RoundIsNear(x: real)
    ensures x - 0.5 <= Round(x) as real <= x + 0.5
    ensures x >= 0.0 ==> Round(x) >= 0
  {
  }

  lemma RoundIsMonotone(x: real, y: real)
    requires x <= y
    ensures Round(x) <= Round(y)
  {
  }

  lemma RoundOfInteger(n: int)
    ensures Round(n as real) == n
  {
    assert (n as real + 0.5).Floor == n;
    assert (0.5 - n as real).Floor == -n;
  }

  lemma RoundReaches(x: real, n: int)
    requires x >= 0.0 && n > 0
    ensures Round(x) >= n <==> x >= n as real - 0.5
  {
  }

  lemma CeilReaches(x: real, n: int)
    ensures n < Ceil(x) <==> n as real < x
    ensures Ceil(x) <= n <==> x <= n as real
  {
  }
}
