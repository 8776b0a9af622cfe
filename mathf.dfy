/** The scalar helpers of Unity's Mathf that the movement controller uses,
    on reals instead of single-precision floats. */
module Mathf {

  function Abs(x: real): (r: real)
    ensures r >= 0.0 && (r == x || r == -x)
  {
    if x < 0.0 then -x else x
  }

  /** Mathf.Sign: the unit sign of x, with zero counted as positive. */
  function Sign(x: real): (r: real)
    ensures r * x == Abs(x)
    ensures r == 1.0 || r == -1.0
    ensures x == 0.0 ==> r == 1.0
  {
    if x >= 0.0 then 1.0 else -1.0
  }

  /** x lies on the closed segment between a and b, whichever way round they are. */
  predicate Between(x: real, a: real, b: real) {
    (a <= x <= b) || (b <= x <= a)
  }

  /** Mathf.Clamp: below min gives min, otherwise above max gives max. */
  function Clamp(value: real, min: real, max: real): (r: real)
    ensures min <= max ==> min <= r <= max
    ensures min <= value <= max ==> r == value
    ensures r == value || r == min || r == max
    ensures value < min ==> r == min
    ensures value >= min && value > max ==> r == max
  {
    if value < min then min
    else if value > max then max
    else value
  }

  /** Mathf.MoveTowards: step from current towards target by at most maxDelta,
      landing exactly on target when it is that close. */
  function MoveTowards(current: real, target: real, maxDelta: real): (r: real)
    ensures maxDelta >= 0.0 ==> Abs(r - current) <= maxDelta
    ensures maxDelta >= 0.0 ==> Between(r, current, target)
    ensures r == target || Abs(r - current) == Abs(maxDelta)
  {
    if Abs(target - current) <= maxDelta then target
    else current + Sign(target - current) * maxDelta
  }
}
