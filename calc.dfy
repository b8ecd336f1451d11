/**
 * MaxDuration and MinDuration of internal/utils/calc.go (copied as maxDuration and
 * minDuration in main.go).
 */
module Calc {
  import opened Captions

  /** The later of two durations; `b` when they are equal. */
  function MaxDuration(a: Duration, b: Duration): (r: Duration)
    ensures r == a || r == b
    ensures r >= a && r >= b
  {
    if a > b then a else b
  }

  /** The earlier of two durations; `b` when they are equal. */
  function MinDuration(a: Duration, b: Duration): (r: Duration)
    ensures r == a || r == b
    ensures r <= a && r <= b
  {
    if a < b then a else b
  }
}
