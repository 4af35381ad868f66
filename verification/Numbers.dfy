/** Numbers as Python converts them. */
module Numbers {

  /** `int` of a float: truncated toward zero. */
  function Trunc(x: real): int {
    if 0.0 <= x then x.Floor else -((-x).Floor)
  }
}
