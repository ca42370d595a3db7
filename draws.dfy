/** Values drawn with `Math.random()`, which the stand-in classifiers take as parameters. */
module Draws {
  /** A `Math.random()` result. */
  predicate IsDraw(r: real)
  {
    0.0 <= r < 1.0
  }

  /** `Math.floor(r * n)`: the index a draw picks among `n` choices. */
  function Pick(r: real, n: nat): (i: nat)
    requires IsDraw(r) && n > 0
    ensures i < n
    ensures i as real <= r * n as real < i as real + 1.0
  {
    (r * n as real).Floor
  }

  /** `lo + r * width`: a draw scaled into `[lo, lo + width)`. */
  function Scale(r: real, lo: real, width: real): (x: real)
    requires IsDraw(r) && width > 0.0
    ensures lo <= x < lo + width
  {
    lo + r * width
  }
}
