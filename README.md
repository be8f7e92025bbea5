# Motion-controlled playback, modelled in Dafny

ControlWithMotion is an iOS app in which the phone's motion sensors drive
video playback. Turning the phone about its horizontal axis seeks forward or
back. Turning it about its vertical axis changes the volume. A hard shake is
detected by the accelerometer. Walking ten metres pauses playback.

This project models the logic between the sensors and the player:

- `rounding.dfy` (module `Rounding`): `roundf` (round half away from zero) and
  Swift's `Int64(_:)` conversion (truncate toward zero), both over `real`.
- `gyro_filter.dfy` (module `GyroFilter`): the newer gyro provider in
  `DataProviders/GyroProvider.swift`. It has a class `GyroProvider` with its one
  mutable field `lastHorizontalFriction`. `RotationToTime` decays that baseline
  and commits a new value. `OnSample` is the per-sample closure. Beside them are
  pure specification functions (`NextFriction`, `SeekLength`, `SampleCommands`)
  and lemmas about them.
- `gyro_legacy.dfy` (module `LegacyGyro`): the older `GyroProvider.swift`, which
  only ever sends volume changes.
- `shake.dfy` (module `ShakeDetector`): the accelerometer's shake test.
- `playback.dfy` (module `Playback`): the receiving side in
  `PlaybackViewController.swift`. The class `PlaybackViewController` holds the
  player as abstract fields: current time, player volume and a playing flag. It
  also holds the screen's `volume` property and whether pedometer capture runs.
  Each method's new state is given by a function on the value type `Screen`.
  Lemmas follow sequences of gyro calls and one gyro sample end to end.

A gyro subscriber receives its `volume`, `forward` and `back` calls as a
sequence of `GyroCommand` values, in the order they are made. Sensor samples
are method arguments.

Behaviour of the code worth knowing:

- The seek length is `Int64(roundf(10·|x|) / 10)`, so only whole seconds
  survive. A horizontal rate of 0.6 rad/s seeks by 0 seconds and sends no seek.
  A seek needs `|x| ≥ 0.95`.
- The volume change is sent on every sample, including a change of zero.
- `lastHorizontalFriction` is set to 0 only when the provider is created.
  Starting capture again does not reset it.
- `seekBy` compares the absolute target time with 1.0 s, not the offset.
- `didSet` does not run for a property's initial value. So the player's volume
  is not set to 0.5 when the screen is created. It first follows the property
  after the first volume change.

## Model

| member | source | states |
|---|---|---|
| `Rounding.Round` | ControlWithMotion/DataProviders/GyroProvider.swift:72 | `roundf`: the result is the integer within one half of the argument. A half-way case goes away from zero. |
| `Rounding.Trunc` | ControlWithMotion/DataProviders/GyroProvider.swift:83 | `Int64(_:)` drops the fraction toward zero: `n ≤ r < n + 1` for `r ≥ 0`, and the mirror image below zero. |
| `Rounding.TruncTenths` | ControlWithMotion/DataProviders/GyroProvider.swift:82-83 | Truncating a whole number of tenths `n/10.0` gives the integer quotient `n div 10`. |
| `GyroFilter.RotationToVolume` | ControlWithMotion/DataProviders/GyroProvider.swift:71-73 | The volume change is a whole number of hundredths. It lies within 0.005 of one tenth of the vertical rate, on the side away from zero at a half-way rate. |
| `GyroFilter.SeekSeconds` | ControlWithMotion/DataProviders/GyroProvider.swift:82-83 | The seek length is `round(10·friction) div 10` whole seconds. It satisfies `s − 0.05 ≤ friction < s + 0.95`. It is positive exactly when the friction is at least 0.95. |
| `GyroFilter.NextFriction` | ControlWithMotion/DataProviders/GyroProvider.swift:76-84 | The new baseline is the larger of `0.1·old` and `abs(rate)`, and equals one of them. It is non-negative when the old one was. |
| `GyroFilter.SeekLength` | ControlWithMotion/DataProviders/GyroProvider.swift:75-89 | rotationToTime returns a length that is never negative. It is positive exactly when the gate passes and `abs(rate) ≥ 0.95`. |
| `GyroFilter.SampleCommands` | ControlWithMotion/DataProviders/GyroProvider.swift:52-63 | A sample sends the volume change first, then at most one seek, and never both forward and back. The seek's length is the positive seek length. Forward is sent exactly when the gate passes and `x ≥ 0.95`. Back is sent exactly when the gate passes and `x ≤ −0.95`. |
| `GyroFilter.GyroProvider.constructor` | ControlWithMotion/DataProviders/GyroProvider.swift:37 | A new provider starts with baseline 0.0. |
| `GyroFilter.GyroProvider.RotationToTime` | ControlWithMotion/DataProviders/GyroProvider.swift:75-89 | The method returns the seek length and leaves the baseline at the next-friction value. The baseline stays non-negative. |
| `GyroFilter.GyroProvider.OnSample` | ControlWithMotion/DataProviders/GyroProvider.swift:51-64 | The calls made are exactly `SampleCommands` of the old baseline. The baseline is updated on every sample, seek or no seek. |
| `GyroFilter.FrictionAfterNonNegative` | ControlWithMotion/DataProviders/GyroProvider.swift:76-84 | After any run of samples, the baseline is never negative. |
| `GyroFilter.StillDeviceFades` | ControlWithMotion/DataProviders/GyroProvider.swift:78 | While the horizontal rate is 0, the baseline after n samples is `old · 0.1ⁿ`. |
| `GyroFilter.FirstTurnPassesGate` | ControlWithMotion/DataProviders/GyroProvider.swift:76-84 | Starting from the initial baseline 0, any nonzero horizontal rate passes the gate and is committed. |
| `GyroFilter.GateAfterCommit` | ControlWithMotion/DataProviders/GyroProvider.swift:78-84 | After a sample passes the gate, the next sample passes if and only if its rate exceeds a tenth of the committed one. |
| `GyroFilter.NoSeekBelowWholeSecond` | ControlWithMotion/DataProviders/GyroProvider.swift:56-63 | A sample with `abs(x) < 0.95`, which includes the dead zone `abs(x) ≤ 0.5`, sends only its volume change. |
| `GyroFilter.CommitWithoutSeek` | ControlWithMotion/DataProviders/GyroProvider.swift:56-59 | A turn too small to seek still passes the gate and commits its rate as the new baseline. |
| `GyroFilter.Examples` | ControlWithMotion/DataProviders/GyroProvider.swift:54-63 | 0.37 → +0.04 and −0.26 → −0.03 volume. From rest, 0.6 sends no seek, 1.0 seeks forward 1 s and −2.44 seeks back 2 s. |
| `LegacyGyro.RotationTo` | ControlWithMotion/GyroProvider.swift:64-66 | The result is a whole number of hundredths, within 0.005 of one tenth of the rate, on the side away from zero at a half-way rate. |
| `LegacyGyro.OnSample` | ControlWithMotion/GyroProvider.swift:53-57 | Each sample makes exactly one call. That call is a volume change equal to the newer provider's. |
| `LegacyGyro.RotationToZero` | ControlWithMotion/GyroProvider.swift:65 | A zero rate changes the volume by zero. |
| `LegacyGyro.RotationToOdd` | ControlWithMotion/GyroProvider.swift:65 | `f(−v) = −f(v)`. |
| `LegacyGyro.RotationToMonotone` | ControlWithMotion/GyroProvider.swift:65 | `v ≤ w` implies `f(v) ≤ f(w)`. |
| `LegacyGyro.AgreesWithNewerVolume` | ControlWithMotion/GyroProvider.swift:54-56 | The older and the newer provider send the same volume change for every sample. |
| `ShakeDetector.OnSample` | ControlWithMotion/DataProviders/AccelerometerProvider.swift:40-45 | A reading makes at most one `shaked()` call. It makes one exactly when `x²+y²+z² ≥ 4`. |
| `ShakeDetector.ShakeIffMagnitude` | ControlWithMotion/DataProviders/AccelerometerProvider.swift:41-43 | For `m = sqrt(x²+y²+z²)`, the reading is a shake if and only if `m ≥ 2.0`. |
| `ShakeDetector.Boundary` | ControlWithMotion/DataProviders/AccelerometerProvider.swift:41-43 | (2, 0, 0) shakes, so the threshold is inclusive. Neither (0, 0, 0) nor a device at rest with ±1 g on one axis shakes. |
| `ShakeDetector.Symmetric` | ControlWithMotion/DataProviders/AccelerometerProvider.swift:41 | Flipping the sign of an axis or swapping two axes does not change the outcome. |
| `ShakeDetector.Monotone` | ControlWithMotion/DataProviders/AccelerometerProvider.swift:41-43 | A reading at least as strong on every axis as a shake is also a shake. |
| `Playback.PlaybackViewController.constructor` | ControlWithMotion/PlaybackViewController.swift:24-28 | The property starts at 0.5. The player keeps its own initial volume, because `didSet` does not run for an initial value. |
| `Playback.PlaybackViewController.StartPlayback` | ControlWithMotion/PlaybackViewController.swift:41-44 | Starts the player and pedometer capture. Nothing else changes. |
| `Playback.PlaybackViewController.PausePlayback` | ControlWithMotion/PlaybackViewController.swift:46-49 | Pauses the player and stops pedometer capture. Nothing else changes. |
| `Playback.PlaybackViewController.BackToBegin` | ControlWithMotion/PlaybackViewController.swift:57-62 | Seeks to time 0, with no threshold. |
| `Playback.PlaybackViewController.SeekBy` | ControlWithMotion/PlaybackViewController.swift:67-73 | Seeks to the target only if the target is greater than 1.0 s. Otherwise nothing changes. |
| `Playback.PlaybackViewController.Back` | ControlWithMotion/PlaybackViewController.swift:75-79 | Goes through seekBy with the target `now − t`. |
| `Playback.PlaybackViewController.Forward` | ControlWithMotion/PlaybackViewController.swift:81-85 | Goes through seekBy with the target `now + t`. |
| `Playback.PlaybackViewController.VolumeChange` | ControlWithMotion/PlaybackViewController.swift:87-89 | Sets the property to `old + change`, with no clamping. The player's volume then equals the property. |
| `Playback.PlaybackViewController.MovedAround` | ControlWithMotion/PlaybackViewController.swift:94-100 | A distance of 10 m or more pauses playback. A shorter distance changes nothing. |
| `Playback.SeekByEffect` | ControlWithMotion/PlaybackViewController.swift:67-73 | A seek moves the time to the target if and only if the target exceeds 1.0 s. No other field changes. |
| `Playback.ForwardBackTargets` | ControlWithMotion/PlaybackViewController.swift:75-85 | Forward lands on `now + t` and back lands on `now − t` when that target is past 1 s. A back whose target is at or below 1 s, negative targets included, changes nothing. |
| `Playback.MovedAroundEffect` | ControlWithMotion/PlaybackViewController.swift:94-100 | Afterwards the screen is playing if and only if it was playing and `meters < 10`. Pedometer capture follows the same rule. No other field changes. |
| `Playback.VolumeAccumulates` | ControlWithMotion/PlaybackViewController.swift:87-89 | After any sequence of gyro calls, the volume is the start volume plus the sum of the changes. From the first volume change on, the player's volume equals the property. |
| `Playback.GyroCallsKeepPlayState` | ControlWithMotion/PlaybackViewController.swift:65-91 | Gyro calls never start or pause playback. The time either stays where it was or ends up past 1 s. |
| `Playback.SampleEffect` | ControlWithMotion/PlaybackViewController.swift:65-91 | One gyro sample from end to end: the volume moves by the quantised vertical rate. The time moves only when the gate passes and `abs(x) ≥ 0.95`. It then moves by the whole-second length, in the rate's direction, when the target is past 1 s. |

## Left out

- Float and Double precision: all arithmetic is on `real`. The `Double → Float` conversions are not modelled. Neither is the rounding of `10·x` in Float arithmetic, which can move a boundary such as 0.95 by one ulp.
- `Rounding.Trunc`: Swift's `Int64(_:)` traps on values outside the 64-bit range. The model truncates every real, because a gyro rate never comes near that range.
- Sensor plumbing: `CMMotionManager` set-up, update intervals, delivery on `OperationQueue.main`, the `init?` availability checks and `stopGyroMotionCapture`. These are platform calls. Samples are method arguments instead.
- Weak subscriber references: a subscriber is the sequence of calls it receives.
- AVFoundation: the player's clock advancing during playback, the seek tolerance of one third of a second, the player's own limits on volume, the player layer and the haptic feedback in `backToBegin`. These are platform behaviour. A seek lands exactly on its target.
- The `DispatchQueue.main.async` hop in `movedAround`: the pause is modelled as immediate, because the hop only defers it.
- `viewDidLoad` sets up the player layer (left out above) and calls `startGyroMotionCapture`; `viewDidAppear` calls `startPlayback`, which is modelled.
- Nothing in the app subscribes to `shaked()`, and `backToBegin` has no caller. Both are modelled on their own.
- `Factory.swift`, `PedometerProvider.swift` and the mocked providers: environment selection, authorisation and timer-driven test doubles. They are not part of this model. The pedometer's only logic, `Int(truncating:)`, shows up as the `int` argument of `MovedAround`.
