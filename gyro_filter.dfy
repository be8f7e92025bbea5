/**
  The gyroscope provider in DataProviders/GyroProvider.swift: each gyro sample
  (x = horizontal rotation rate, y = vertical rotation rate, in rad/s) becomes a
  volume change and, through the decaying "friction" gate on
  `lastHorizontalFriction`, possibly a forward or back seek of a whole number
  of seconds. Samples arrive as method arguments and the subscriber is the
  sequence of commands a sample produces, in the order they are sent.
 */
module GyroFilter {
  import opened Rounding

  /** The calls a gyro sample makes on its `GyroSubscriber`. */
  datatype GyroCommand =
    | Volume(change: real)   // volume(change:)
    | Forward(time: int)     // forward(time:), a CMTime of whole seconds
    | Back(time: int)        // back(time:), a CMTime of whole seconds

  predicate IsSeek(c: GyroCommand) {
    c.Forward? || c.Back?
  }

  const PositiveGyroThreshold: real := 0.5
  const NegativeGyroThreshold: real := -0.5
  const VolumeSensibilityNominator: real := 10.0
  const VolumeSensibilityDenominator: real := 100.0
  const PlaybackSensibilityNominator: real := 10.0
  const PlaybackSensibilityDenominator: real := 10.0
  const HorizontalFrictionAttenuator: real := 0.1

  /** rotationToVolume: the vertical rate scaled by ten, rounded, in hundredths. */
  function RotationToVolume(rate: real): (v: real)
    ensures (100.0 * v).Floor as real == 100.0 * v
    ensures rate >= 0.0 ==> -0.005 < v - rate / 10.0 <= 0.005
    ensures rate < 0.0 ==> -0.005 <= v - rate / 10.0 < 0.005
  {
    Round(rate * VolumeSensibilityNominator) as real / VolumeSensibilityDenominator
  }

  /**
    The seek length that rotationToTime returns once the gate has passed:
    the friction scaled by ten, rounded, scaled back and truncated by `Int64`,
    so only whole seconds survive.
   */
  function SeekSeconds(friction: real): (s: int)
    requires friction >= 0.0
    ensures s == Round(friction * 10.0) / 10
    ensures s as real - 0.05 <= friction < s as real + 0.95
    ensures s > 0 <==> friction >= 0.95
  {
    var scaled := Round(friction * PlaybackSensibilityNominator) as real / PlaybackSensibilityDenominator;
    TruncTenths(Round(friction * PlaybackSensibilityNominator));
    Trunc(scaled)
  }

  /** The friction baseline as it is compared, after the per-sample fade. */
  function Decay(friction: real): real {
    friction * HorizontalFrictionAttenuator
  }

  /** The friction gate: the fresh friction must exceed the faded baseline. */
  predicate GatePasses(last: real, rate: real) {
    Decay(last) < Abs(rate)
  }

  /** The value of `lastHorizontalFriction` after a sample of horizontal rate `rate`. */
  function NextFriction(last: real, rate: real): (f: real)
    ensures f >= Abs(rate) && f >= Decay(last)
    ensures f == Abs(rate) || f == Decay(last)
    ensures last >= 0.0 ==> f >= 0.0
  {
    if GatePasses(last, rate) then Abs(rate) else Decay(last)
  }

  /** The seconds rotationToTime returns: zero (zeroTimeShift) when the gate fails. */
  function SeekLength(last: real, rate: real): (s: int)
    ensures s >= 0
    ensures s > 0 <==> GatePasses(last, rate) && Abs(rate) >= 0.95
  {
    if GatePasses(last, rate) then SeekSeconds(Abs(rate)) else 0
  }

  /** The calls one sample makes on the subscriber, in order. */
  function SampleCommands(last: real, x: real, y: real): (cmds: seq<GyroCommand>)
    ensures 1 <= |cmds| <= 2
    ensures cmds[0] == Volume(RotationToVolume(y))
    ensures |cmds| == 2 ==> IsSeek(cmds[1]) && cmds[1].time == SeekLength(last, x) > 0
    ensures |cmds| == 2 && cmds[1].Forward? <==> GatePasses(last, x) && x >= 0.95
    ensures |cmds| == 2 && cmds[1].Back? <==> GatePasses(last, x) && x <= -0.95
  {
    var volume := [Volume(RotationToVolume(y))];
    var shift := SeekLength(last, x);
    if shift <= 0 then volume
    else if x > PositiveGyroThreshold then volume + [Forward(shift)]
    else if x < NegativeGyroThreshold then volume + [Back(shift)]
    else volume
  }

  class GyroProvider {
    var lastHorizontalFriction: real

    ghost predicate Valid()
      reads this
    {
      lastHorizontalFriction >= 0.0
    }

    constructor ()
      ensures Valid()
      ensures lastHorizontalFriction == 0.0
    {
      lastHorizontalFriction := 0.0;
    }

    /** rotationToTime: fades the baseline, then commits `|rate|` if the gate passes. */
    method RotationToTime(rate: real) returns (seconds: int)
      requires Valid()
      modifies this
      ensures Valid()
      ensures seconds == SeekLength(old(lastHorizontalFriction), rate)
      ensures lastHorizontalFriction == NextFriction(old(lastHorizontalFriction), rate)
    {
      var friction := Abs(rate);
      lastHorizontalFriction := lastHorizontalFriction * HorizontalFrictionAttenuator;
      if lastHorizontalFriction < friction {
        seconds := SeekSeconds(friction);
        lastHorizontalFriction := friction;
      } else {
        seconds := 0;
      }
    }

    /** The closure given to startGyroUpdates, run once per gyro sample. */
    method OnSample(x: real, y: real) returns (cmds: seq<GyroCommand>)
      requires Valid()
      modifies this
      ensures Valid()
      ensures cmds == SampleCommands(old(lastHorizontalFriction), x, y)
      ensures lastHorizontalFriction == NextFriction(old(lastHorizontalFriction), x)
    {
      var volumeShift := RotationToVolume(y);
      cmds := [Volume(volumeShift)];
      var positionShift := RotationToTime(x);
      if positionShift <= 0 {
        return;
      }
      if x > PositiveGyroThreshold {
        cmds := cmds + [Forward(positionShift)];
      } else if x < NegativeGyroThreshold {
        cmds := cmds + [Back(positionShift)];
      }
    }
  }

  /** The baseline after a run of samples with the given horizontal rates. */
  function FrictionAfter(last: real, rates: seq<real>): real
    decreases |rates|
  {
    if rates == [] then last else FrictionAfter(NextFriction(last, rates[0]), rates[1..])
  }

  function Power(b: real, n: nat): real {
    if n == 0 then 1.0 else b * Power(b, n - 1)
  }

  /** The baseline is never negative, whatever the samples. */
  lemma {:induction false} FrictionAfterNonNegative(last: real, rates: seq<real>)
    requires last >= 0.0
    ensures FrictionAfter(last, rates) >= 0.0
    decreases |rates|
  {
    if rates != [] {
      FrictionAfterNonNegative(NextFriction(last, rates[0]), rates[1..]);
    }
  }

  /** While the device does not turn horizontally, the baseline fades by a tenth per sample. */
  lemma {:induction false} StillDeviceFades(last: real, rates: seq<real>)
    requires last >= 0.0
    requires forall i :: 0 <= i < |rates| ==> rates[i] == 0.0
    ensures FrictionAfter(last, rates) == last * Power(HorizontalFrictionAttenuator, |rates|)
    decreases |rates|
  {
    if rates != [] {
      assert NextFriction(last, rates[0]) == last * HorizontalFrictionAttenuator;
      StillDeviceFades(last * HorizontalFrictionAttenuator, rates[1..]);
      calc {
        FrictionAfter(last, rates);
        (last * HorizontalFrictionAttenuator) * Power(HorizontalFrictionAttenuator, |rates| - 1);
        last * (HorizontalFrictionAttenuator * Power(HorizontalFrictionAttenuator, |rates| - 1));
      }
    }
  }

  /** A fresh provider's baseline is 0, so its first turning sample always passes the gate. */
  lemma FirstTurnPassesGate(x: real)
    requires x != 0.0
    ensures GatePasses(0.0, x)
    ensures NextFriction(0.0, x) == Abs(x)
  {
  }

  /**
    After a sample that passed the gate, the next sample passes exactly when its
    rate is more than a tenth of the committed one: holding a tilt keeps passing,
    a sharp drop is held back.
   */
  lemma GateAfterCommit(last: real, x1: real, x2: real)
    requires GatePasses(last, x1)
    ensures GatePasses(NextFriction(last, x1), x2) <==> Abs(x2) > Abs(x1) / 10.0
  {
  }

  /** No seek in the dead zone, and none below 0.95 rad/s because of the truncation. */
  lemma NoSeekBelowWholeSecond(last: real, x: real, y: real)
    requires Abs(x) < 0.95
    ensures SampleCommands(last, x, y) == [Volume(RotationToVolume(y))]
  {
  }

  /**
    The baseline moves even when no seek is sent: a turn inside the dead zone, or
    one too small for a whole second, still commits its rate.
   */
  lemma CommitWithoutSeek(last: real, x: real, y: real)
    requires last >= 0.0 && 0.0 < Abs(x) < 0.95 && Decay(last) < Abs(x)
    ensures |SampleCommands(last, x, y)| == 1
    ensures NextFriction(last, x) == Abs(x) != last * HorizontalFrictionAttenuator
  {
  }

  /** Concrete cases: 0.37 rad/s gives +0.04, -0.26 gives -0.03, 0.6 from rest gives no seek. */
  lemma Examples()
    ensures RotationToVolume(0.37) == 0.04
    ensures RotationToVolume(-0.26) == -0.03
    ensures SampleCommands(0.0, 0.6, 0.0) == [Volume(0.0)]
    ensures SampleCommands(0.0, 1.0, 0.0) == [Volume(0.0), Forward(1)]
    ensures SampleCommands(0.0, -2.44, 0.0) == [Volume(0.0), Back(2)]
  {
  }
}
