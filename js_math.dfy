/**
  The two JavaScript `Math` functions the terrain script relies on, over
  exact reals (IEEE-754 doubles, NaN and infinities are not modelled).
 */
module JsMath {

  /** `Math.round`: the integer nearest to `x`; a tie (`x` halfway between
      two integers) goes to the larger one, i.e. towards +infinity. */
  function Round(x: real): (r: int)
    ensures x - 0.5 < r as real <= x + 0.5
  {
    (x + 0.5).Floor
  }

  /** `Math.min` of two numbers. */
  function Min(a: real, b: real): (m: real)
    ensures m <= a && m <= b
    ensures m == a || m == b
  {
    if a <= b then a else b
  }
}
