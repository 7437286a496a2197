/** Values the simple estimator consumes but does not define itself: the
    sensor measurement, quaternions, Euler angles, and the floating-point
    library (trigonometry, quaternion utilities and physical constants).

    The library is not modelled numerically. It is a record of functions and
    constants that every estimator receives, so every property proved about
    the estimator holds whatever those functions compute. */
module AhrsTypes {

  /** One sensor sample, restricted to the fields the simple estimator reads. */
  datatype Measurement = Measurement(
    T: real,                      // time of the sample, seconds
    B1: real, B2: real, B3: real, // gyro rates about the body axes, degrees per second
    W1: real, W2: real, W3: real, // GPS velocity components, knots
    WValid: bool)                 // whether W1, W2, W3 carry a usable GPS velocity

  /** An attitude quaternion (E0, E1, E2, E3). */
  datatype Quaternion = Quaternion(e0: real, e1: real, e2: real, e3: real)

  /** Euler angles, in the order the estimator passes them around. */
  datatype Angles = Angles(roll: real, pitch: real, heading: real)

  /** Componentwise difference of two quaternions. */
  function Minus(a: Quaternion, b: Quaternion): Quaternion
  {
    Quaternion(a.e0 - b.e0, a.e1 - b.e1, a.e2 - b.e2, a.e3 - b.e3)
  }

  /** The numerical library and constants the estimator calls.
      EulerRates(q, dq) stands for the linearised extraction of the roll,
      pitch and heading increments from a quaternion and its increment. */
  datatype Numerics = Numerics(
    Pi: real,
    G: real,
    Deg: real,
    Hypot: (real, real) -> real,
    Atan: real -> real,
    Atan2: (real, real) -> real,
    ToQuaternion: Angles -> Quaternion,
    QuaternionRotate: (Quaternion, Angles) -> Quaternion,
    Regularize: Angles -> Angles,
    EulerRates: (Quaternion, Quaternion) -> Angles)

  /** A library whose constants are positive: the estimator divides by G,
      and its heading wrap is a half turn either way of zero only when Pi is
      positive. Nothing else about the library is relied on. */
  type Library = num: Numerics | num.Pi > 0.0 && num.G > 0.0
    witness Numerics(
      3.0, 1.0, 1.0,
      (x: real, y: real) => 0.0,
      (x: real) => 0.0,
      (y: real, x: real) => 0.0,
      (a: Angles) => Quaternion(1.0, 0.0, 0.0, 0.0),
      (q: Quaternion, a: Angles) => q,
      (a: Angles) => a,
      (q: Quaternion, dq: Quaternion) => Angles(0.0, 0.0, 0.0))
}
