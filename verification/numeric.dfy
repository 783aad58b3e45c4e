/**
 Exact real arithmetic helpers shared by the neuron models: the two-argument
 maximum, truncation toward zero, and the ceiling used for grid lengths.
 */
module Numeric {

  /** The larger of two reals; `Max(0.0, x)` is the leak clamp of the LIF models. */
  function Max(a: real, b: real): (r: real)
    ensures r >= a && r >= b
    ensures r == a || r == b
  {
    if b > a then b else a
  }

  /**
   Conversion of a real to an integer by truncation toward zero. This is what
   happens when a float is written into a NumPy array of integer dtype, and what
   Python's `int(...)` does to a float.
   */
  function Trunc(x: real): (r: int)
    ensures 0.0 <= x ==> r as real <= x < r as real + 1.0
    ensures x < 0.0 ==> r as real - 1.0 < x <= r as real
  {
    if x >= 0.0 then x.Floor else -((-x).Floor)
  }

  /** The least integer not below `x`. */
  function Ceil(x: real): (r: int)
    ensures r as real - 1.0 < x <= r as real
  {
    -((-x).Floor)
  }

  /** Truncation never moves a value away from zero, and keeps its sign. */
  lemma TruncTowardZero(x: real)
    ensures 0.0 <= x ==> 0 <= Trunc(x) && Trunc(x) as real <= x
    ensures x <= 0.0 ==> Trunc(x) <= 0 && x <= Trunc(x) as real
  {
  }

  /** A real at most an integer `n` truncates to at most `n`. */
  lemma TruncBelowInt(x: real, n: int)
    requires x <= n as real
    ensures Trunc(x) <= n
  {
  }
}
