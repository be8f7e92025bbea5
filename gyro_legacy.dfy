/**
  The older gyroscope provider in GyroProvider.swift: it reads only the
  vertical rotation rate and turns every sample into one volume change. It has
  no friction state and never seeks.
 */
module LegacyGyro {
  import opened Rounding
  import GyroFilter

  /** rotationTo(volume:): the rate scaled by ten, rounded half away from zero, in hundredths. */
  function RotationTo(volume: real): (v: real)
    ensures (100.0 * v).Floor as real == 100.0 * v
    ensures volume >= 0.0 ==> -0.005 < v - volume / 10.0 <= 0.005
    ensures volume < 0.0 ==> -0.005 <= v - volume / 10.0 < 0.005
  {
    Round(volume * 10.0) as real / 100.0
  }

  /** The callback given to startGyroUpdates: exactly one volume call, never a seek. */
  function OnSample(x: real, y: real): (cmds: seq<GyroFilter.GyroCommand>)
    ensures |cmds| == 1 && cmds[0].Volume?
    ensures cmds[0].change == GyroFilter.RotationToVolume(y)
  {
    [GyroFilter.Volume(RotationTo(y))]
  }

  lemma RotationToZero()
    ensures RotationTo(0.0) == 0.0
  {
  }

  /** Turning the other way changes the volume by the opposite amount. */
  lemma RotationToOdd(volume: real)
    ensures RotationTo(-volume) == -RotationTo(volume)
  {
  }

  /** A faster turn never gives a smaller volume change. */
  lemma RotationToMonotone(v: real, w: real)
    requires v <= w
    ensures RotationTo(v) <= RotationTo(w)
  {
    RoundMonotone(v * 10.0, w * 10.0);
  }

  /** The older and the newer provider change the volume by the same amount for every sample. */
  lemma AgreesWithNewerVolume(x: real, y: real, last: real)
    ensures OnSample(x, y)[0] == GyroFilter.SampleCommands(last, x, y)[0]
  {
  }
}
