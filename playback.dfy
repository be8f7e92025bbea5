/**
  The playback screen of PlaybackViewController.swift as the receiver of gyro
  and pedometer calls. The AVPlayer is abstract state: its current time in
  seconds, its volume, whether it plays; beside it the screen's own `volume`
  property and whether pedometer capture runs. Seeks land exactly on their
  target (the one-third-second tolerance is not modelled) and the player's clock
  does not advance by itself here.
 */
module Playback {
  import opened Rounding
  import opened GyroFilter

  const PlayStartPosition: real := 0.0
  const DefaultVolume: real := 0.5
  const DistanceToPause: int := 10
  const TimeShiftSecondsThresholdToAffect: real := 1.0

  /** What the screen and its player hold between calls. */
  datatype Screen = Screen(
    time: real,              // player.currentTime(), in seconds
    volume: real,            // the screen's `volume` property
    playerVolume: real,      // player.volume
    playing: bool,           // the player was last told to play
    pedometerCapturing: bool // pedometer capture is running
  ) {
    /** seekBy: the argument is the absolute target, and only targets past one second are sought. */
    function SeekBy(target: real): Screen {
      if target > TimeShiftSecondsThresholdToAffect then this.(time := target) else this
    }

    function Back(t: real): Screen {
      SeekBy(time - t)
    }

    function Forward(t: real): Screen {
      SeekBy(time + t)
    }

    /** volume(change:) adds to the property; its didSet copies it into the player. */
    function VolumeChange(change: real): Screen {
      this.(volume := volume + change, playerVolume := volume + change)
    }

    function StartPlayback(): Screen {
      this.(playing := true, pedometerCapturing := true)
    }

    function PausePlayback(): Screen {
      this.(playing := false, pedometerCapturing := false)
    }

    function BackToBegin(): Screen {
      this.(time := PlayStartPosition)
    }

    function MovedAround(meters: int): Screen {
      if meters >= DistanceToPause then PausePlayback() else this
    }

    /** One call from the gyro provider. */
    function Apply(c: GyroCommand): Screen {
      match c
      case Volume(change) => VolumeChange(change)
      case Forward(t) => Forward(t as real)
      case Back(t) => Back(t as real)
    }
  }

  /** The calls of a gyro provider, received one after another. */
  function ApplyAll(s: Screen, cmds: seq<GyroCommand>): Screen
    decreases |cmds|
  {
    if cmds == [] then s else ApplyAll(s.Apply(cmds[0]), cmds[1..])
  }

  function VolumeSum(cmds: seq<GyroCommand>): real
    decreases |cmds|
  {
    if cmds == [] then 0.0
    else (if cmds[0].Volume? then cmds[0].change else 0.0) + VolumeSum(cmds[1..])
  }

  class PlaybackViewController {
    var time: real
    var volume: real
    var playerVolume: real
    var playing: bool
    var pedometerCapturing: bool

    function State(): Screen
      reads this
    {
      Screen(time, volume, playerVolume, playing, pedometerCapturing)
    }

    /**
      A new screen: the property starts at the default volume, but didSet does
      not run for an initial value, so the player keeps the volume it was made with.
     */
    constructor (initialPlayerVolume: real)
      ensures State() == Screen(0.0, DefaultVolume, initialPlayerVolume, false, false)
    {
      time := 0.0;
      volume := DefaultVolume;
      playerVolume := initialPlayerVolume;
      playing := false;
      pedometerCapturing := false;
    }

    method StartPlayback()
      modifies this
      ensures State() == old(State()).StartPlayback()
    {
      playing := true;
      pedometerCapturing := true;
    }

    method PausePlayback()
      modifies this
      ensures State() == old(State()).PausePlayback()
    {
      playing := false;
      pedometerCapturing := false;
    }

    method BackToBegin()
      modifies this
      ensures State() == old(State()).BackToBegin()
    {
      time := PlayStartPosition;
    }

    method SeekBy(target: real)
      modifies this
      ensures State() == old(State()).SeekBy(target)
    {
      if target > TimeShiftSecondsThresholdToAffect {
        time := target;
      }
    }

    method Back(t: real)
      modifies this
      ensures State() == old(State()).Back(t)
    {
      var timeNow := time;
      var timeOffset := timeNow - t;
      SeekBy(timeOffset);
    }

    method Forward(t: real)
      modifies this
      ensures State() == old(State()).Forward(t)
    {
      var timeNow := time;
      var timeOffset := timeNow + t;
      SeekBy(timeOffset);
    }

    method VolumeChange(change: real)
      modifies this
      ensures State() == old(State()).VolumeChange(change)
      ensures playerVolume == volume == old(volume) + change
    {
      volume := volume + change;
      playerVolume := volume;
    }

    method MovedAround(meters: int)
      modifies this
      ensures State() == old(State()).MovedAround(meters)
    {
      if meters >= DistanceToPause {
        PausePlayback();
      }
    }
  }

  /**
    A seek moves the player only to a target past one second; any other target,
    a negative one from `back` included, leaves the time and everything else alone.
   */
  lemma SeekByEffect(s: Screen, target: real)
    ensures s.SeekBy(target).time == (if target > 1.0 then target else s.time)
    ensures s.SeekBy(target).(time := s.time) == s
  {
  }

  /** forward(time:) targets now + t and back(time:) targets now - t. */
  lemma ForwardBackTargets(s: Screen, t: real)
    ensures s.time + t > 1.0 ==> s.Forward(t).time == s.time + t
    ensures s.time - t > 1.0 ==> s.Back(t).time == s.time - t
    ensures s.time - t <= 1.0 ==> s.Back(t) == s
  {
  }

  /** Walking ten metres or more stops playback and pedometer capture; less changes nothing. */
  lemma MovedAroundEffect(s: Screen, meters: int)
    ensures s.MovedAround(meters).playing == (s.playing && meters < 10)
    ensures s.MovedAround(meters).pedometerCapturing == (s.pedometerCapturing && meters < 10)
    ensures s.MovedAround(meters).(playing := s.playing, pedometerCapturing := s.pedometerCapturing) == s
  {
  }

  /** Volume changes add up with no clamping, and the player follows the property after each. */
  lemma {:induction false} VolumeAccumulates(s: Screen, cmds: seq<GyroCommand>)
    ensures ApplyAll(s, cmds).volume == s.volume + VolumeSum(cmds)
    ensures (exists i :: 0 <= i < |cmds| && cmds[i].Volume?) || s.playerVolume == s.volume
      ==> ApplyAll(s, cmds).playerVolume == ApplyAll(s, cmds).volume
    decreases |cmds|
  {
    if cmds != [] {
      VolumeAccumulates(s.Apply(cmds[0]), cmds[1..]);
      if exists i :: 0 <= i < |cmds| && cmds[i].Volume? {
        var i :| 0 <= i < |cmds| && cmds[i].Volume?;
        if i > 0 {
          assert cmds[1..][i - 1].Volume?;
        }
      }
    }
  }

  /** Gyro calls never start or stop playback, and the time only ever lands past one second. */
  lemma {:induction false} GyroCallsKeepPlayState(s: Screen, cmds: seq<GyroCommand>)
    ensures ApplyAll(s, cmds).playing == s.playing
    ensures ApplyAll(s, cmds).pedometerCapturing == s.pedometerCapturing
    ensures ApplyAll(s, cmds).time == s.time || ApplyAll(s, cmds).time > 1.0
    decreases |cmds|
  {
    if cmds != [] {
      GyroCallsKeepPlayState(s.Apply(cmds[0]), cmds[1..]);
    }
  }

  /**
    One gyro sample end to end: the volume moves by the quantised vertical rate;
    the time moves only for a horizontal rate of at least 0.95 rad/s that passes
    the gate, and then by the whole-second seek length in the rate's direction.
   */
  lemma SampleEffect(s: Screen, last: real, x: real, y: real)
    ensures ApplyAll(s, SampleCommands(last, x, y)).volume == s.volume + RotationToVolume(y)
    ensures Abs(x) < 0.95 || !GatePasses(last, x) ==> ApplyAll(s, SampleCommands(last, x, y)).time == s.time
    ensures GatePasses(last, x) && x >= 0.95 && s.time + SeekLength(last, x) as real > 1.0
      ==> ApplyAll(s, SampleCommands(last, x, y)).time == s.time + SeekLength(last, x) as real
    ensures GatePasses(last, x) && x <= -0.95 && s.time - SeekLength(last, x) as real > 1.0
      ==> ApplyAll(s, SampleCommands(last, x, y)).time == s.time - SeekLength(last, x) as real
  {
    var cmds := SampleCommands(last, x, y);
    var s1 := s.Apply(cmds[0]);
    assert s1.time == s.time;
    if |cmds| == 2 {
      assert ApplyAll(s, cmds) == ApplyAll(s1, cmds[1..]) == s1.Apply(cmds[1]);
    } else {
      assert ApplyAll(s, cmds) == s1;
    }
  }
}
