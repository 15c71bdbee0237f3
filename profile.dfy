/** Calibration constants, the snapshot of the motion globals, and the two
    period recurrences of the stepper ramp (step_motor_v1/step_motor.c). */
module Profile {

  /** Mechanical step angle in degrees: one full step is 1.8 degrees. */
  const StepAngle: real := 1.8

  /** Timer frequency parameter T1_FREQ = 0.676 * 10000 / 10 (= 676). It scales
      the initial period c0 = T1Freq * sqrt(ASq / accel) and the cruise period. */
  const T1Freq: real := 0.676 * 10000.0 / 10.0

  /** Acceleration parameter A_SQ = 2 * 0.0314 * 100000 (= 6280), under the
      square root of the initial period. */
  const ASq: real := 2.0 * 0.0314 * 100000.0

  /** Fitted constant of the theoretical ramp length speed^2 / (RampK * rate). */
  const RampK: real := 0.0628

  /** Constant of the cruise period cm = CruiseK * T1Freq / speed. */
  const CruiseK: real := 10.0 * 0.0314

  /** Default motion configuration (the initial values of accel, decel, speed). */
  const DefaultAccel: real := 0.5
  const DefaultDecel: real := 0.5
  const DefaultSpeed: real := 20.0

  /** The `mode` global: 0 before the first move, 1 triangular (no cruise
      phase), 2 trapezoidal (accelerate, cruise, decelerate). */
  datatype Shape = Unplanned | Triangular | Trapezoidal

  /** The motion globals that the planner writes and the tick handler reads
      and updates. Every counter of the source is a float; the step counter
      only ever holds whole numbers, so it is an int here. */
  datatype Motion = Motion(
    stepCount: int,  // step_count: steps executed so far
    total: real,     // total_steps: target step count
    n1: real,        // accel-phase boundary
    n2: real,        // decel steps still to go; the denominator term of the decel ramp
    ny: real,        // cruise-phase step count (trapezoidal mode only)
    ct: real,        // current timer period
    mode: Shape,
    armed: bool)     // the step timer's interrupt is running

  /** The globals before the first move: everything zero, timer stopped. */
  const Idle := Motion(0, 0.0, 0.0, 0.0, 0.0, 0.0, Unplanned, false)

  /** Whether r is a whole number. */
  predicate IsIntegral(r: real) {
    r == r.Floor as real
  }

  /** Smallest whole number not below x. */
  function Ceil(x: real): (r: int)
    ensures x <= r as real < x + 1.0
  {
    -((-x).Floor)
  }

  /** Theoretical length in steps of a ramp from standstill to `speed` at
      acceleration `rate`: speed^2 / (RampK * rate). */
  function RampSteps(speed: real, rate: real): (r: real)
    requires rate > 0.0
    ensures r >= 0.0
    ensures r * RampK * rate == speed * speed
  {
    speed * speed / (RampK * rate)
  }

  /** Accelerating period recurrence ct - 2ct/(4k + 1), evaluated with the
      step index k before it is incremented. */
  function AccelPeriod(ct: real, k: int): (r: real)
    ensures r * (4.0 * k as real + 1.0) == ct * (4.0 * k as real - 1.0)
    ensures ct > 0.0 && k >= 1 ==> 0.0 < r < ct
  {
    ct - (2.0 * ct) / (4.0 * k as real + 1.0)
  }

  /** Decelerating period recurrence ct + 2ct/(4 n2 - 1), with n2 the decel
      steps still to go. Undefined (a division by zero) when n2 == 1/4. */
  function DecelPeriod(ct: real, n2: real): (r: real)
    requires 4.0 * n2 - 1.0 != 0.0
    ensures r * (4.0 * n2 - 1.0) == ct * (4.0 * n2 + 1.0)
    ensures ct > 0.0 && n2 > 0.25 ==> r > ct
    ensures ct > 0.0 && -0.25 < n2 < 0.25 ==> r < 0.0
  {
    RampQuotient(ct, 4.0 * n2 - 1.0);
    ct + (2.0 * ct) / (4.0 * n2 - 1.0)
  }

  /** The decel recurrence with denominator d: ct + 2ct/d is ct * (d + 2) / d,
      above ct for a positive d and below zero for d in (-2, 0). */
  lemma RampQuotient(ct: real, d: real)
    requires d != 0.0
    ensures (ct + (2.0 * ct) / d) * d == ct * (d + 2.0)
    ensures ct > 0.0 && d > 0.0 ==> (2.0 * ct) / d > 0.0
    ensures ct > 0.0 && -2.0 < d < 0.0 ==> ct + (2.0 * ct) / d < 0.0
  {
    var q := (2.0 * ct) / d;
    assert q * d == 2.0 * ct;
    assert (ct + q) * d == ct * d + q * d;
    if ct > 0.0 && -2.0 < d < 0.0 && ct + q >= 0.0 {
      MulNonPositive(ct + q, d);
      MulPositive(ct, 2.0 + d);
      assert false;
    }
  }

  lemma MulPositive(a: real, b: real)
    requires a > 0.0 && b > 0.0
    ensures a * b > 0.0
  {
  }

  lemma MulNonPositive(a: real, b: real)
    requires a >= 0.0 && b < 0.0
    ensures a * b <= 0.0
  {
  }
}
