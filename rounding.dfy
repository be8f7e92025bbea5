/**
  The two Float-to-integer rules the gyro mappers rely on: `roundf`, which
  rounds half-way cases away from zero, and Swift's `Int64(_:)` conversion,
  which truncates toward zero. Both are defined through Dafny's `Floor` on
  `real`; the precision of Swift's `Float` is not modelled.
 */
module Rounding {

  function Abs(r: real): (a: real)
    ensures a >= 0.0
    ensures a == r || a == -r
  {
    if r < 0.0 then -r else r
  }

  /** `roundf`: nearest integer, half-way cases away from zero. */
  function Round(r: real): (n: int)
    ensures r >= 0.0 ==> n >= 0 && n as real - 0.5 <= r < n as real + 0.5
    ensures r < 0.0 ==> n <= 0 && n as real - 0.5 < r <= n as real + 0.5
  {
    if r >= 0.0 then (r + 0.5).Floor else -((-r + 0.5).Floor)
  }

  /** Swift's `Int64(_:)` on a floating-point value: drop the fraction, toward zero. */
  function Trunc(r: real): (n: int)
    ensures r >= 0.0 ==> 0 <= n && n as real <= r < n as real + 1.0
    ensures r < 0.0 ==> n <= 0 && n as real - 1.0 < r <= n as real
  {
    if r >= 0.0 then r.Floor else -((-r).Floor)
  }

  /** The two bands in Round's contract pin its value down: no other integer meets them. */
  lemma RoundUnique(r: real, k: int)
    requires r >= 0.0 ==> k as real - 0.5 <= r < k as real + 0.5
    requires r < 0.0 ==> k as real - 0.5 < r <= k as real + 0.5
    ensures k == Round(r)
  {
  }

  /** Rounding half away from zero is symmetric about zero. */
  lemma RoundOdd(r: real)
    ensures Round(-r) == -Round(r)
  {
  }

  lemma RoundMonotone(r: real, s: real)
    requires r <= s
    ensures Round(r) <= Round(s)
  {
  }

  /** Truncating a non-negative whole number of tenths gives integer division by ten. */
  lemma TruncTenths(n: int)
    requires n >= 0
    ensures Trunc(n as real / 10.0) == n / 10
  {
  }
}
