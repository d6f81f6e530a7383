/** JavaScript's `Math.round` on exact reals. */
module JsMath {

  /** `Math.round(x)`: the nearest integer, with halves rounded towards +infinity. */
  function Round(x: real): (r: int)
    ensures x - 0.5 < r as real <= x + 0.5
  {
    (x + 0.5).Floor
  }

  /** The contract of Round pins its result down: exactly one integer lies in (x - 0.5, x + 0.5]. */
  lemma RoundUnique(x: real, n: int)
    requires x - 0.5 < n as real <= x + 0.5
    ensures Round(x) == n
  {
  }

  lemma RoundMonotone(x: real, y: real)
    requires x <= y
    ensures Round(x) <= Round(y)
  {
  }

  /** Adding a whole number commutes with rounding. */
  lemma RoundShift(x: real, n: int)
    ensures Round(x + n as real) == Round(x) + n
  {
    RoundUnique(x + n as real, Round(x) + n);
  }

  /** A half is rounded up, not to even. */
  lemma RoundHalfUp(n: int)
    ensures Round(n as real + 0.5) == n + 1
    ensures Round(n as real - 0.5) == n
  {
  }

  predicate IsWhole(x: real) {
    x.Floor as real == x
  }
}
