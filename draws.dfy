/** Random draws made explicit.

    Every call of the platform's uniform generator in the generator is replaced
    by a parameter of type `Draw`: a number in the half-open interval [0, 1).
    The generator only ever compares a draw with a constant or scales it and
    rounds down, so both operations are defined here once.
 */
module Draws {

  /** The value of one uniform draw. */
  type Draw = r: real | 0.0 <= r < 1.0

  /** Scaling a draw by a positive bound stays below that bound. */
  lemma ScaledBelow(r: Draw, n: real)
    requires n > 0.0
    ensures 0.0 <= r * n < n
  {
  }

  /** Rounding down a number in [0, n) gives an integer in 0..n-1. */
  lemma FloorBelow(x: real, n: int)
    requires 0.0 <= x < n as real
    ensures 0 <= x.Floor < n
  {
  }

  /** `Math.floor(r * n)`: the integer part of the scaled draw, always one of 0..n-1. */
  function Scaled(r: Draw, n: nat): (k: nat)
    requires n > 0
    ensures k < n
    ensures k as real <= r * n as real < k as real + 1.0
  {
    ScaledBelow(r, n as real);
    FloorBelow(r * n as real, n);
    (r * n as real).Floor
  }

  /** `getRandomElement(arr)`: the element at the scaled index, hence always an element of `arr`. */
  function RandomElement<T>(arr: seq<T>, r: Draw): (x: T)
    requires |arr| > 0
    ensures x in arr
  {
    arr[Scaled(r, |arr|)]
  }
}
