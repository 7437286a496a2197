# Simple AHRS estimator, modelled in Dafny

This project models `SimpleState`, the simple attitude and heading reference
system (AHRS) estimator in `ahrs/ahrs_simple.go`. The estimator fuses two
attitude sources. One is the gyro: it integrates the body rates through the
attitude quaternion. The other is GPS: it derives an attitude from the
velocity vector, with a bank angle taken from the turn rate.

Each measurement has one of three effects:

- it is ignored when it arrives less than `MinDT` after the last one;
- it re-initialises the estimator when it arrives more than `MaxDT` after the last one;
- otherwise it refreshes the GPS attitude and applies a damped gyro step to the fused attitude.

A gyro increment that would widen the gap between the fused angle and the GPS
angle is scaled by the reversion constant `K`. For heading, the gap is first
wrapped to a half turn.

Files:

- `ahrs_types.dfy` (module `AhrsTypes`): the measurement, quaternion and Euler-angle values.
  It also holds `Numerics`, the floating-point library and physical constants the estimator
  calls (hypot, atan, atan2, quaternion conversion and rotation, regularisation, π, g and the
  degree-to-radian factor). `Numerics` is passed in as a value. Every proof therefore holds
  whatever those functions compute. The only facts assumed about the library are π > 0 and
  g > 0.
- `ahrs_simple.dfy` (module `AhrsSimple`): the constants, and `Estimate`, the value a
  `SimpleState` holds. It also has the specification functions for initialisation and for one
  update, and the class `SimpleState`, whose imperative methods are proved against those
  functions. `Run` gives the state after a sequence of `Compute` calls, and the lemmas about
  whole runs are stated over it.

The code updates the state in three blocks: the GPS refresh, the gyro increments, and the
damping. The class follows this layout: `Update` calls one method per block, and each method
is proved against its own specification function. The effects and their order are those of
the single Go function.

Within an update that passes both time gates, the fused attitude moves only by the damped
gyro increment, followed by regularisation. A stale measurement resets it to the GPS attitude.
With a zero gyro increment, an update does not pull the fused attitude toward the GPS
attitude; it is only regularised (`GpsAloneDoesNotMoveFused`, lines 141-163).

## Model

| member | source | states |
|---|---|---|
| AhrsSimple.InitEstimate | ahrs/ahrs_simple.go:32-61 | After (re-)initialisation: the clock is the measurement's time; turn rate and GPS roll are 0; the fused attitude equals the GPS attitude and the quaternion is that attitude's. A valid velocity sets the groundspeed to its horizontal norm and stores the velocity; an invalid one zeroes both. Above MinGS, heading and pitch come from atan2 of the velocity; otherwise they are π/2 and 0. The result is coherent. |
| AhrsSimple.RefreshGps | ahrs/ahrs_simple.go:82-102 | The groundspeed is overwritten only when the velocity is valid. With a trusted velocity (valid and above MinGS), the turn rate is the filtered one; the GPS roll is the bank angle of that turn rate, pitch and heading come from atan2, and the velocity is stored. Otherwise the GPS attitude is held at the pre-update fused attitude, and the turn rate and stored velocity become 0. Clock, quaternion and fused attitude are untouched, and coherence is preserved. |
| AhrsSimple.Damp | ahrs/ahrs_simple.go:141-155 | The damped step is the raw increment or K times it. It differs from the raw increment exactly when the discrepancy and the increment have the same sign. It never reverses or grows the increment. When damping applies, the damped step leaves the angle strictly closer to the GPS angle than the raw step would. |
| AhrsSimple.WrapHeading | ahrs/ahrs_simple.go:147-152 | The heading discrepancy changes by at most one full turn. A discrepancy already within a half turn is kept. Any discrepancy within 3π lands in [−π, π]. |
| AhrsSimple.Blend | ahrs/ahrs_simple.go:141-161 | When the GPS attitude equals the fused attitude, no damping applies: the result is the regularised sum of the fused attitude and the raw increment. |
| AhrsSimple.ApplyGyro | ahrs/ahrs_simple.go:104-163 | The fused attitude becomes the blend of the damped gyro increment, and the quaternion is recomputed from it. No other part of the state changes. |
| AhrsSimple.UpdateEstimate | ahrs/ahrs_simple.go:72-165 | Below MinDT the state is unchanged. Above MaxDT it equals the initialisation from the measurement. Otherwise the clock is the measurement's time; the GPS part, groundspeed, turn rate and velocity are those of the GPS refresh; the fused attitude is the blend of the gyro increment against the refreshed GPS attitude; and the quaternion is recomputed. Without trusted GPS, the GPS attitude holds the old fused attitude and the fused attitude takes the undamped increment. The clock never goes backwards, and coherence is preserved. |
| AhrsSimple.SimpleState.InitializeSimple | ahrs/ahrs_simple.go:24-30 | A new estimator holds exactly the initialisation from its first measurement and is coherent. |
| AhrsSimple.SimpleState.Init | ahrs/ahrs_simple.go:32-61 | The fields after the in-place initialisation are InitEstimate of the measurement. |
| AhrsSimple.SimpleState.ResetGpsAttitude | ahrs/ahrs_simple.go:46-54 | Turn rate and GPS roll become 0. GPS heading and pitch come from the velocity above MinGS; otherwise they are π/2 and 0. Nothing else changes. |
| AhrsSimple.SimpleState.AlignToGps | ahrs/ahrs_simple.go:56-60 | The fused attitude becomes the GPS attitude, and the quaternion becomes that attitude's. Nothing else changes. |
| AhrsSimple.SimpleState.SyncQuaternion | ahrs/ahrs_simple.go:60 | The quaternion fields become the quaternion of the fused attitude. Nothing else changes. |
| AhrsSimple.SimpleState.Compute | ahrs/ahrs_simple.go:63-70 | The new state is UpdateEstimate of the old state; prediction is a no-op. |
| AhrsSimple.SimpleState.Update | ahrs/ahrs_simple.go:72-165 | The new state is UpdateEstimate of the old state. A gated measurement leaves the object unchanged. Coherence is preserved. |
| AhrsSimple.SimpleState.RefreshGpsAttitude | ahrs/ahrs_simple.go:82-102 | The fields after the GPS block are RefreshGps of the old state. |
| AhrsSimple.SimpleState.TrackGpsAttitude | ahrs/ahrs_simple.go:86-93 | The trusted-GPS branch: filtered turn rate, bank angle, atan2 pitch and heading, and the stored velocity. Nothing else changes. |
| AhrsSimple.SimpleState.HoldGpsAttitude | ahrs/ahrs_simple.go:94-102 | The fallback branch: the GPS attitude is held at the fused attitude, and the turn rate and velocity are cleared. Nothing else changes. |
| AhrsSimple.SimpleState.PropagateGyro | ahrs/ahrs_simple.go:104-163 | The fields after the gyro step are ApplyGyro of the old state. |
| AhrsSimple.SimpleState.GyroRates | ahrs/ahrs_simple.go:104-135 | The raw increments are those of the current quaternion rotated by the gyro angles over dt. |
| AhrsSimple.SimpleState.DampedIncrements | ahrs/ahrs_simple.go:141-155 | Each increment is damped against its own discrepancy, and heading against the wrapped discrepancy. The properties of this rule are those proved for Damp and WrapHeading. |
| AhrsSimple.SimpleState.Valid | ahrs/ahrs_simple.go:167-169 | The estimator always reports itself valid. |
| AhrsSimple.SimpleState.CalcRollPitchHeading | ahrs/ahrs_simple.go:171-174 | Returns the fused attitude of the state. |
| AhrsSimple.SimpleState.CalcGPSRollPitchHeading | ahrs/ahrs_simple.go:176-179 | Returns the GPS-derived attitude of the state. |
| AhrsSimple.RunKeepsCoherent | ahrs/ahrs_simple.go:63-66 | Every sequence of Compute calls keeps the estimate coherent: the quaternion matches the fused attitude, a non-zero turn rate only at trusted groundspeed, and the stored velocity matches the groundspeed. |
| AhrsSimple.RunClockMonotone | ahrs/ahrs_simple.go:72-80 | Over any sequence of measurements, in any order, the estimator clock never decreases. |
| AhrsSimple.RunClockNearLatest | ahrs/ahrs_simple.go:72-80 | After a sequence of measurements, none of them is more than MinDT ahead of the clock. |
| AhrsSimple.StaleForgetsHistory | ahrs/ahrs_simple.go:77-80 | When the first measurement of a sequence is stale for two states, both end in the same state. |
| AhrsSimple.DuplicateIgnored | ahrs/ahrs_simple.go:72-76 | Feeding the same measurement twice has the effect of feeding it once. |
| AhrsSimple.GpsAloneDoesNotMoveFused | ahrs/ahrs_simple.go:141-163 | With a zero gyro increment, an update leaves the fused attitude merely regularised, whatever the GPS attitude. |

## Left out

- The covariance matrices `M` and `N` (lines 26-27) come from an external matrix library, and no computation here uses them.
- The floating-point library (`math.Hypot`, `math.Atan`, `math.Atan2`, `ToQuaternion`, `QuaternionRotate`, `Regularize`) and the constants `Pi`, `G` and `Deg` are parameters of the model, not computed. Their definitions live outside `ahrs/ahrs_simple.go` and are not part of this model.
- The derivative extraction at lines 113-135 is taken as a single library function, `EulerRates(q, dq)`: the linearised roll, pitch and heading increments computed from the quaternion and its change. Its formulas, including the square root and the divisions that can reach zero, are not modelled.
- All `float64` arithmetic is modelled as exact real arithmetic. Rounding, NaN and infinities are not modelled, and neither is the inexactness of `K = 0.9` and `MinDT = 1e-6`.
- `Predict` (a no-op, so `Compute` models only `Update`), `CalcRollPitchHeadingUncertainty` (returns zeros), `GetState` (exposes the embedded record, which the class fields already model) and `PredictMeasurement` (returns a fresh default measurement from outside this file) have no behaviour of the estimator to model.
- The commented-out logging calls have no effect and are not modelled.
- The measurement record keeps only the fields the estimator reads (time, gyro rates, GPS velocity and its validity flag). The other fields of the record are not part of this model.
- No property states concrete angle values after an update, because they depend on the trigonometric library.
