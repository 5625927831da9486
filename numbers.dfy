/** Python's `int()` of a float, shared by the modules that scale frame
    sizes or turn seconds into frame numbers. Floats are modelled as reals. */
module Numbers {

  /** Truncation toward zero. */
  function Trunc(x: real): (r: int)
    ensures x >= 0.0 ==> r as real <= x < r as real + 1.0
    ensures x < 0.0 ==> r as real - 1.0 < x <= r as real
  {
    if x >= 0.0 then x.Floor else -((-x).Floor)
  }
}
