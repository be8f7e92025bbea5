/**
  The shake test in DataProviders/AccelerometerProvider.swift: a reading whose
  total acceleration sqrt(x*x + y*y + z*z) is at least 2 g is a shake. The
  comparison is made on the squared magnitude, which needs no square root; the
  lemma ShakeIffMagnitude ties it back to the magnitude itself.
 */
module ShakeDetector {
  import opened Rounding

  /** The calls a reading makes on its `AccelerometerSubscriber`. */
  datatype AccelerometerEvent = Shaked

  const AccelerationMagnitudeToAffect: real := 2.0

  function SquaredMagnitude(x: real, y: real, z: real): (m2: real)
    ensures m2 >= 0.0
  {
    x * x + y * y + z * z
  }

  predicate IsShake(x: real, y: real, z: real) {
    SquaredMagnitude(x, y, z) >= AccelerationMagnitudeToAffect * AccelerationMagnitudeToAffect
  }

  /** The accelerometer callback: at most one `shaked()` call per reading. */
  function OnSample(x: real, y: real, z: real): (events: seq<AccelerometerEvent>)
    ensures |events| <= 1
    ensures |events| == 1 <==> x * x + y * y + z * z >= 4.0
  {
    if IsShake(x, y, z) then [Shaked] else []
  }

  /**
    For the magnitude m = sqrt(x*x + y*y + z*z), the reading is a shake exactly
    when m >= 2.0, the comparison the Swift code makes at
    `totalAcceleration >= Constants.accelerationMagnitudeToAffect`.
   */
  lemma ShakeIffMagnitude(x: real, y: real, z: real, m: real)
    requires m >= 0.0 && m * m == SquaredMagnitude(x, y, z)
    ensures IsShake(x, y, z) <==> m >= AccelerationMagnitudeToAffect
  {
    if m >= 2.0 {
      assert m * m >= 2.0 * m;
    } else {
      assert m * m <= 2.0 * m;
    }
  }

  /** The threshold is inclusive, and a device at rest (1 g on one axis) does not shake. */
  lemma Boundary()
    ensures IsShake(2.0, 0.0, 0.0)
    ensures !IsShake(0.0, 0.0, 0.0)
    ensures !IsShake(0.0, 0.0, 1.0) && !IsShake(0.0, 0.0, -1.0)
  {
  }

  /** Flipping an axis or listing the axes in another order does not change the outcome. */
  lemma Symmetric(x: real, y: real, z: real)
    ensures IsShake(-x, y, z) == IsShake(x, y, z)
    ensures IsShake(x, -y, z) == IsShake(x, y, z)
    ensures IsShake(x, y, -z) == IsShake(x, y, z)
    ensures IsShake(y, x, z) == IsShake(x, y, z)
    ensures IsShake(x, z, y) == IsShake(x, y, z)
    ensures IsShake(z, y, x) == IsShake(x, y, z)
  {
  }

  lemma SquareMonotone(a: real, b: real)
    requires Abs(a) <= Abs(b)
    ensures a * a <= b * b
  {
  }

  /** A reading at least as strong on every axis as a shake is a shake too. */
  lemma Monotone(x: real, y: real, z: real, x': real, y': real, z': real)
    requires IsShake(x, y, z)
    requires Abs(x) <= Abs(x') && Abs(y) <= Abs(y') && Abs(z) <= Abs(z')
    ensures IsShake(x', y', z')
  {
    SquareMonotone(x, x');
    SquareMonotone(y, y');
    SquareMonotone(z, z');
  }
}
