/** The simple attitude estimator: a single-writer state that fuses gyro
    integration with a GPS-derived attitude. Each measurement is either
    ignored (too soon after the last one), restarts the estimator (too long
    after the last one), or refreshes the GPS attitude and applies a damped
    gyro step to the fused attitude.

    The specification functions InitEstimate and UpdateEstimate describe the
    two state changes on values; the class SimpleState performs them in place
    and is proved against them. */
module AhrsSimple {
  import opened AhrsTypes

  const MinDT: real := 0.000001 // below this time interval, the measurement is ignored
  const MaxDT: real := 10.0     // above this time interval, the state is re-initialised
  const MinGS: real := 10.0     // at or below this groundspeed, GPS data is not used
  const K: real := 0.9          // reversion constant

  /** The value held by a SimpleState. */
  datatype Estimate = Estimate(
    T: real,                                        // time of the last processed measurement
    rollGPS: real, pitchGPS: real, headingGPS: real, // GPS-derived attitude
    roll: real, pitch: real, heading: real,         // fused attitude
    w1: real, w2: real, w3: real,                   // last used GPS velocity
    gs: real,                                       // groundspeed
    tr: real,                                       // turn rate
    E: Quaternion)                                  // fused attitude as a quaternion

  function Fused(e: Estimate): Angles
  {
    Angles(e.roll, e.pitch, e.heading)
  }

  function Gps(e: Estimate): Angles
  {
    Angles(e.rollGPS, e.pitchGPS, e.headingGPS)
  }

  /** The invariant every estimate keeps: the quaternion is the fused
      attitude's, a non-zero turn rate only survives at trusted groundspeed,
      and a stored velocity is the one the stored groundspeed came from. */
  ghost predicate Coherent(num: Library, e: Estimate)
  {
    && e.E == num.ToQuaternion(Fused(e))
    && (e.tr != 0.0 ==> e.gs > MinGS)
    && ((e.w1 == 0.0 && e.w2 == 0.0 && e.w3 == 0.0) || e.gs == num.Hypot(e.w1, e.w2))
  }

  /** The state a measurement (re-)initialises the estimator to. */
  function InitEstimate(num: Library, m: Measurement): (r: Estimate)
    ensures r.T == m.T
    ensures r.tr == 0.0 && r.rollGPS == 0.0
    ensures Fused(r) == Gps(r)
    ensures r.E == num.ToQuaternion(Fused(r))
    ensures m.WValid ==> r.gs == num.Hypot(m.W1, m.W2) && r.w1 == m.W1 && r.w2 == m.W2 && r.w3 == m.W3
    ensures !m.WValid ==> r.gs == 0.0 && r.w1 == 0.0 && r.w2 == 0.0 && r.w3 == 0.0
    ensures r.gs > MinGS ==> r.headingGPS == num.Atan2(m.W1, m.W2) && r.pitchGPS == num.Atan2(m.W3, r.gs)
    ensures r.gs <= MinGS ==> r.headingGPS == num.Pi / 2.0 && r.pitchGPS == 0.0
    ensures Coherent(num, r)
  {
    var gs := if m.WValid then num.Hypot(m.W1, m.W2) else 0.0;
    var headingGPS := if gs > MinGS then num.Atan2(m.W1, m.W2) else num.Pi / 2.0;
    var pitchGPS := if gs > MinGS then num.Atan2(m.W3, gs) else 0.0;
    Estimate(
      T := m.T,
      rollGPS := 0.0, pitchGPS := pitchGPS, headingGPS := headingGPS,
      roll := 0.0, pitch := pitchGPS, heading := headingGPS,
      w1 := if m.WValid then m.W1 else 0.0,
      w2 := if m.WValid then m.W2 else 0.0,
      w3 := if m.WValid then m.W3 else 0.0,
      gs := gs,
      tr := 0.0,
      E := num.ToQuaternion(Angles(0.0, pitchGPS, headingGPS)))
  }

  /** True when a measurement carries a GPS velocity fast enough to trust,
      judged by the groundspeed the update has just recomputed. */
  predicate TrustsGps(num: Library, m: Measurement)
  {
    m.WValid && num.Hypot(m.W1, m.W2) > MinGS
  }

  /** The new turn rate: an exponentially weighted average that gives the
      new sample a weight of 0.1. The sample is the cross-track change of the
      velocity vector, divided by the squared groundspeed and the elapsed time. */
  function FilteredTurnRate(tr: real, w1: real, w2: real, m: Measurement, gs: real, dt: real): real
    requires gs > MinGS && dt >= MinDT
  {
    0.9 * tr + 0.1 * (m.W2 * (m.W1 - w1) - m.W1 * (m.W2 - w2)) / (gs * gs) / dt
  }

  /** The bank angle of a coordinated turn at groundspeed gs and turn rate tr. */
  function BankAngle(num: Library, gs: real, tr: real): real
  {
    num.Atan(gs * tr / num.G)
  }

  /** The GPS attitude refresh of an update that passed the time gate. */
  function RefreshGps(num: Library, e: Estimate, m: Measurement, dt: real): (r: Estimate)
    requires dt >= MinDT
    ensures r.T == e.T && r.E == e.E && Fused(r) == Fused(e)
    ensures r.gs == if m.WValid then num.Hypot(m.W1, m.W2) else e.gs
    ensures TrustsGps(num, m) ==>
      && r.tr == FilteredTurnRate(e.tr, e.w1, e.w2, m, r.gs, dt)
      && r.rollGPS == BankAngle(num, r.gs, r.tr)
      && r.pitchGPS == num.Atan2(m.W3, r.gs)
      && r.headingGPS == num.Atan2(m.W1, m.W2)
      && r.w1 == m.W1 && r.w2 == m.W2 && r.w3 == m.W3
    ensures !TrustsGps(num, m) ==>
      && Gps(r) == Fused(e)
      && r.tr == 0.0
      && r.w1 == 0.0 && r.w2 == 0.0 && r.w3 == 0.0
    ensures Coherent(num, e) ==> Coherent(num, r)
  {
    var g := if m.WValid then e.(gs := num.Hypot(m.W1, m.W2)) else e;
    if m.WValid && g.gs > MinGS then TrackGps(num, g, m, dt) else HoldGps(g)
  }

  /** GPS tracking at trusted groundspeed: the turn rate is filtered, and the
      GPS attitude and the stored velocity follow the measurement. */
  function TrackGps(num: Library, e: Estimate, m: Measurement, dt: real): Estimate
    requires e.gs > MinGS && dt >= MinDT
  {
    var tr := FilteredTurnRate(e.tr, e.w1, e.w2, m, e.gs, dt);
    e.(tr := tr,
       rollGPS := BankAngle(num, e.gs, tr),
       pitchGPS := num.Atan2(m.W3, e.gs),
       headingGPS := num.Atan2(m.W1, m.W2),
       w1 := m.W1, w2 := m.W2, w3 := m.W3)
  }

  /** Without trusted GPS data the GPS attitude is held at the fused one,
      and the turn rate and the stored velocity are cleared. */
  function HoldGps(e: Estimate): Estimate
  {
    e.(tr := 0.0,
       rollGPS := e.roll, pitchGPS := e.pitch, headingGPS := e.heading,
       w1 := 0.0, w2 := 0.0, w3 := 0.0)
  }

  function Abs(x: real): real
  {
    if x < 0.0 then -x else x
  }

  /** The asymmetric damping rule. A gyro increment that points the same way
      as the fused-minus-GPS discrepancy would carry the fused angle further
      from the GPS angle; it is scaled by K. Any other increment is kept. */
  function Damp(discrepancy: real, raw: real): (step: real)
    ensures step == raw || step == K * raw
    ensures step != raw <==> discrepancy * raw > 0.0
    ensures step * raw >= 0.0 && Abs(step) <= Abs(raw)
    ensures discrepancy * raw > 0.0 ==> Abs(discrepancy + step) < Abs(discrepancy + raw)
  {
    if discrepancy * raw > 0.0 then K * raw else raw
  }

  /** The heading discrepancy brought back by one turn when it exceeds a
      half turn either way. */
  function WrapHeading(ddh: real, pi: real): (r: real)
    ensures r == ddh || r == ddh - 2.0 * pi || r == ddh + 2.0 * pi
    ensures -pi <= ddh <= pi ==> r == ddh
    ensures -3.0 * pi <= ddh <= 3.0 * pi ==> -pi <= r <= pi
  {
    if ddh > pi then ddh - 2.0 * pi
    else if ddh < -pi then ddh + 2.0 * pi
    else ddh
  }

  /** The angles the gyro rates (degrees per second) turn through over dt,
      in the library's angle unit. */
  function GyroAngles(num: Library, m: Measurement, dt: real): Angles
  {
    Angles(m.B1 * num.Deg * dt, m.B2 * num.Deg * dt, m.B3 * num.Deg * dt)
  }

  /** The undamped roll, pitch and heading increments the gyro rates produce
      over dt, from the current quaternion and its rotated successor. */
  function GyroIncrement(num: Library, q: Quaternion, m: Measurement, dt: real): Angles
  {
    var rotated := num.QuaternionRotate(q, GyroAngles(num, m, dt));
    num.EulerRates(q, Minus(rotated, q))
  }

  /** The damped increments: roll and pitch are damped against their own
      discrepancy, heading against the discrepancy wrapped to a half turn. */
  function DampedStep(num: Library, fused: Angles, gps: Angles, raw: Angles): Angles
  {
    Angles(Damp(fused.roll - gps.roll, raw.roll),
           Damp(fused.pitch - gps.pitch, raw.pitch),
           Damp(WrapHeading(fused.heading - gps.heading, num.Pi), raw.heading))
  }

  /** The fused angles after adding the damped increments to the current
      ones and regularising. */
  function Blend(num: Library, fused: Angles, gps: Angles, raw: Angles): (r: Angles)
    ensures gps == fused ==> r == num.Regularize(AddAngles(fused, raw))
  {
    num.Regularize(AddAngles(fused, DampedStep(num, fused, gps, raw)))
  }

  function AddAngles(a: Angles, b: Angles): Angles
  {
    Angles(a.roll + b.roll, a.pitch + b.pitch, a.heading + b.heading)
  }

  /** The gyro step of an update: the fused attitude moves by the damped
      gyro increment, and the quaternion follows it. */
  function ApplyGyro(num: Library, e: Estimate, m: Measurement, dt: real): (r: Estimate)
    ensures Fused(r) == Blend(num, Fused(e), Gps(e), GyroIncrement(num, e.E, m, dt))
    ensures r.E == num.ToQuaternion(Fused(r))
    ensures r == e.(roll := r.roll, pitch := r.pitch, heading := r.heading, E := r.E)
  {
    var fused := Blend(num, Fused(e), Gps(e), GyroIncrement(num, e.E, m, dt));
    e.(roll := fused.roll, pitch := fused.pitch, heading := fused.heading,
       E := num.ToQuaternion(fused))
  }

  /** The state after one measurement. */
  function UpdateEstimate(num: Library, e: Estimate, m: Measurement): (r: Estimate)
    ensures m.T - e.T < MinDT ==> r == e
    ensures m.T - e.T > MaxDT ==> r == InitEstimate(num, m)
    ensures r.T == if m.T - e.T < MinDT then e.T else m.T
    ensures e.T <= r.T
    ensures MinDT <= m.T - e.T <= MaxDT ==>
      var g := RefreshGps(num, e, m, m.T - e.T);
      && Gps(r) == Gps(g) && r.gs == g.gs && r.tr == g.tr
      && r.w1 == g.w1 && r.w2 == g.w2 && r.w3 == g.w3
      && Fused(r) == Blend(num, Fused(e), Gps(g), GyroIncrement(num, e.E, m, m.T - e.T))
      && r.E == num.ToQuaternion(Fused(r))
    ensures MinDT <= m.T - e.T <= MaxDT && !TrustsGps(num, m) ==>
      && Gps(r) == Fused(e)
      && Fused(r) == num.Regularize(AddAngles(Fused(e), GyroIncrement(num, e.E, m, m.T - e.T)))
    ensures Coherent(num, e) ==> Coherent(num, r)
  {
    var dt := m.T - e.T;
    if dt < MinDT then e
    else if dt > MaxDT then InitEstimate(num, m)
    else ApplyGyro(num, RefreshGps(num, e, m, dt), m, dt).(T := m.T)
  }

  /** The estimator in place. */
  class SimpleState {
    const num: Library
    var T: real
    var rollGPS: real, pitchGPS: real, headingGPS: real
    var roll: real, pitch: real, heading: real
    var w1: real, w2: real, w3: real, gs: real
    var tr: real
    var E0: real, E1: real, E2: real, E3: real

    ghost function Snapshot(): Estimate
      reads this
    {
      Estimate(T, rollGPS, pitchGPS, headingGPS, roll, pitch, heading,
               w1, w2, w3, gs, tr, Quaternion(E0, E1, E2, E3))
    }

    /** A new estimator, initialised from its first measurement. */
    constructor InitializeSimple(num: Library, m: Measurement)
      ensures this.num == num
      ensures Snapshot() == InitEstimate(num, m)
      ensures Coherent(num, Snapshot())
    {
      this.num := num;
      new;
      Init(m);
    }

    /** (Re-)initialises the estimator from a measurement: velocity and
        groundspeed, then the GPS attitude, then the fused attitude set to it. */
    method Init(m: Measurement)
      modifies this
      ensures Snapshot() == InitEstimate(num, m)
    {
      T := m.T;
      if m.WValid {
        gs := num.Hypot(m.W1, m.W2);
        w1 := m.W1;
        w2 := m.W2;
        w3 := m.W3;
      } else {
        gs := 0.0;
        w1 := 0.0;
        w2 := 0.0;
        w3 := 0.0;
      }
      ResetGpsAttitude(m);
      AlignToGps();
    }

    /** Turn rate and GPS attitude of a freshly initialised estimator. */
    method ResetGpsAttitude(m: Measurement)
      modifies this
      ensures Snapshot() == old(Snapshot()).(
        tr := 0.0, rollGPS := 0.0,
        headingGPS := if old(gs) > MinGS then num.Atan2(m.W1, m.W2) else num.Pi / 2.0,
        pitchGPS := if old(gs) > MinGS then num.Atan2(m.W3, old(gs)) else 0.0)
    {
      tr := 0.0;
      rollGPS := 0.0;
      if gs > MinGS {
        headingGPS := num.Atan2(m.W1, m.W2);
        pitchGPS := num.Atan2(m.W3, gs);
      } else {
        headingGPS := num.Pi / 2.0;
        pitchGPS := 0.0;
      }
    }

    /** Sets the fused attitude to the GPS attitude. */
    method AlignToGps()
      modifies this
      ensures Snapshot() == old(Snapshot()).(roll := old(rollGPS), pitch := old(pitchGPS), heading := old(headingGPS),
                                             E := num.ToQuaternion(Gps(old(Snapshot()))))
    {
      roll := rollGPS;
      pitch := pitchGPS;
      heading := headingGPS;
      SyncQuaternion();
    }

    /** Recomputes the quaternion from the fused attitude. */
    method SyncQuaternion()
      modifies this
      ensures Snapshot() == old(Snapshot()).(E := num.ToQuaternion(Fused(old(Snapshot()))))
    {
      var q := num.ToQuaternion(Angles(roll, pitch, heading));
      E0, E1, E2, E3 := q.e0, q.e1, q.e2, q.e3;
    }

    /** Processes one measurement; the prediction step is a no-op. */
    method Compute(m: Measurement)
      modifies this
      ensures Snapshot() == UpdateEstimate(num, old(Snapshot()), m)
    {
      Update(m);
    }

    /** The time gate, then the GPS refresh and the gyro step; the clock
        advances only when the measurement is processed. */
    method Update(m: Measurement)
      modifies this
      ensures Snapshot() == UpdateEstimate(num, old(Snapshot()), m)
      ensures m.T - old(T) < MinDT ==> unchanged(this)
      ensures Coherent(num, old(Snapshot())) ==> Coherent(num, Snapshot())
    {
      var dt := m.T - T;
      if dt < MinDT {
        return;
      }
      if dt > MaxDT {
        Init(m);
        return;
      }

      RefreshGpsAttitude(m, dt);
      PropagateGyro(m, dt);
      T := m.T;
    }

    /** The GPS refresh of an update that passed the time gate. */
    method RefreshGpsAttitude(m: Measurement, dt: real)
      requires dt >= MinDT
      modifies this
      ensures Snapshot() == RefreshGps(num, old(Snapshot()), m, dt)
    {
      if m.WValid {
        gs := num.Hypot(m.W1, m.W2);
      }

      if m.WValid && gs > MinGS {
        TrackGpsAttitude(m, dt);
      } else {
        HoldGpsAttitude();
      }
    }

    /** GPS tracking at trusted groundspeed. */
    method TrackGpsAttitude(m: Measurement, dt: real)
      requires gs > MinGS && dt >= MinDT
      modifies this
      ensures Snapshot() == TrackGps(num, old(Snapshot()), m, dt)
    {
      tr := FilteredTurnRate(tr, w1, w2, m, gs, dt);
      rollGPS := BankAngle(num, gs, tr);
      pitchGPS := num.Atan2(m.W3, gs);
      headingGPS := num.Atan2(m.W1, m.W2);
      w1 := m.W1;
      w2 := m.W2;
      w3 := m.W3;
    }

    /** Holding the GPS attitude at the fused one. */
    method HoldGpsAttitude()
      modifies this
      ensures Snapshot() == HoldGps(old(Snapshot()))
    {
      tr := 0.0;
      rollGPS := roll;
      pitchGPS := pitch;
      headingGPS := heading;
      w1 := 0.0;
      w2 := 0.0;
      w3 := 0.0;
    }

    /** The gyro step of an update: rotate the quaternion by the gyro rates,
        extract the angle increments, damp them, and apply them. */
    method PropagateGyro(m: Measurement, dt: real)
      modifies this
      ensures Snapshot() == ApplyGyro(num, old(Snapshot()), m, dt)
    {
      ghost var before := Snapshot();
      var rates := GyroRates(m, dt);
      var dr, dp, dh := DampedIncrements(rates);

      pitch := pitch + dp;
      roll := roll + dr;
      heading := heading + dh;

      var regular := num.Regularize(Angles(roll, pitch, heading));
      ghost var r := ApplyGyro(num, before, m, dt);
      assert regular == Fused(r);
      roll, pitch, heading := regular.roll, regular.pitch, regular.heading;
      SyncQuaternion();
    }

    /** The undamped roll, pitch and heading increments: the quaternion is
        rotated by the angles the gyro rates turn through over dt, and the
        increments are read off the quaternion and its change. */
    method GyroRates(m: Measurement, dt: real) returns (rates: Angles)
      ensures rates == GyroIncrement(num, Quaternion(E0, E1, E2, E3), m, dt)
    {
      var q0, q1, q2, q3 := E0, E1, E2, E3;
      var rotated := num.QuaternionRotate(Quaternion(q0, q1, q2, q3), GyroAngles(num, m, dt));
      var dq0, dq1, dq2, dq3 := rotated.e0, rotated.e1, rotated.e2, rotated.e3;
      dq0 := dq0 - q0;
      dq1 := dq1 - q1;
      dq2 := dq2 - q2;
      dq3 := dq3 - q3;
      rates := num.EulerRates(Quaternion(q0, q1, q2, q3), Quaternion(dq0, dq1, dq2, dq3));
    }

    /** The increments after damping: each one that would widen the gap
        between the fused and the GPS angle is scaled by K, the heading gap
        being first brought within a half turn. */
    method DampedIncrements(rates: Angles) returns (dr: real, dp: real, dh: real)
      ensures Angles(dr, dp, dh) == DampedStep(num, Angles(roll, pitch, heading), Angles(rollGPS, pitchGPS, headingGPS), rates)
    {
      dr, dp, dh := rates.roll, rates.pitch, rates.heading;
      if (pitch - pitchGPS) * dp > 0.0 {
        dp := dp * K;
      }
      if (roll - rollGPS) * dr > 0.0 {
        dr := dr * K;
      }
      var ddh := heading - headingGPS;
      if ddh > num.Pi {
        ddh := ddh - 2.0 * num.Pi;
      } else if ddh < -num.Pi {
        ddh := ddh + 2.0 * num.Pi;
      }
      if ddh * dh > 0.0 {
        dh := dh * K;
      }
    }

    /** This estimator reports itself valid unconditionally. */
    function Valid(): (ok: bool)
      ensures ok
    {
      true
    }

    /** The fused attitude. */
    function CalcRollPitchHeading(): (a: Angles)
      reads this
      ensures a == Fused(Snapshot())
    {
      Angles(roll, pitch, heading)
    }

    /** The GPS-derived attitude. */
    function CalcGPSRollPitchHeading(): (a: Angles)
      reads this
      ensures a == Gps(Snapshot())
    {
      Angles(rollGPS, pitchGPS, headingGPS)
    }
  }

  /** The state after a sequence of Compute calls. */
  ghost function Run(num: Library, e: Estimate, ms: seq<Measurement>): Estimate
    decreases |ms|
  {
    if ms == [] then e else Run(num, UpdateEstimate(num, e, ms[0]), ms[1..])
  }

  /** Every sequence of measurements keeps the estimator coherent. */
  lemma {:induction false} RunKeepsCoherent(num: Library, e: Estimate, ms: seq<Measurement>)
    requires Coherent(num, e)
    ensures Coherent(num, Run(num, e, ms))
    decreases |ms|
  {
    if ms != [] {
      RunKeepsCoherent(num, UpdateEstimate(num, e, ms[0]), ms[1..]);
    }
  }

  /** The estimator's clock never goes backwards, whatever the order of the
      measurements it is fed. */
  lemma {:induction false} RunClockMonotone(num: Library, e: Estimate, ms: seq<Measurement>)
    ensures e.T <= Run(num, e, ms).T
    decreases |ms|
  {
    if ms != [] {
      RunClockMonotone(num, UpdateEstimate(num, e, ms[0]), ms[1..]);
    }
  }

  /** After a sequence of measurements, the clock is within MinDT of the
      latest of them: no measurement is more than MinDT ahead of it. */
  lemma {:induction false} RunClockNearLatest(num: Library, e: Estimate, ms: seq<Measurement>)
    ensures forall i :: 0 <= i < |ms| ==> ms[i].T - MinDT < Run(num, e, ms).T
    decreases |ms|
  {
    if ms != [] {
      var next := UpdateEstimate(num, e, ms[0]);
      RunClockNearLatest(num, next, ms[1..]);
      RunClockMonotone(num, next, ms[1..]);
      forall i | 0 <= i < |ms|
        ensures ms[i].T - MinDT < Run(num, e, ms).T
      {
        if i > 0 {
          assert ms[i] == ms[1..][i - 1];
        }
      }
    }
  }

  /** A stale measurement makes the whole future independent of the state it
      arrived at. */
  lemma StaleForgetsHistory(num: Library, e1: Estimate, e2: Estimate, ms: seq<Measurement>)
    requires ms != []
    requires ms[0].T - e1.T > MaxDT && ms[0].T - e2.T > MaxDT
    ensures Run(num, e1, ms) == Run(num, e2, ms)
  {
  }

  /** Feeding the same measurement twice has the effect of feeding it once. */
  lemma DuplicateIgnored(num: Library, e: Estimate, m: Measurement)
    ensures UpdateEstimate(num, UpdateEstimate(num, e, m), m) == UpdateEstimate(num, e, m)
  {
  }

  /** GPS data never pulls the fused attitude by itself: with a zero gyro
      increment the fused attitude is only regularised, whatever the GPS
      attitude is. */
  lemma GpsAloneDoesNotMoveFused(num: Library, e: Estimate, m: Measurement)
    requires MinDT <= m.T - e.T <= MaxDT
    requires GyroIncrement(num, e.E, m, m.T - e.T) == Angles(0.0, 0.0, 0.0)
    ensures Fused(UpdateEstimate(num, e, m)) == num.Regularize(Fused(e))
  {
  }
}
