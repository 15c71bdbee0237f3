/** The profile planner, `start` (step_motor_v1/step_motor.c:61-104): the
    target step count, the theoretical ramp lengths, the choice between a
    triangular and a trapezoidal profile and the phase split, and the reset
    of the run state. */
module Planner {
  import opened Profile
  import opened Sequencer

  /** Target step count as the source computes it: angle / 1.8, a real
      number that is not rounded. */
  function StepsAsWritten(angle: real): (r: real)
    ensures r * StepAngle == angle
  {
    angle / StepAngle
  }

  /** Target step count rounded up to a whole number of steps. Rounding up
      keeps the number of stepping ticks of the unrounded count. */
  function StepsFor(angle: real): (r: real)
    ensures IsIntegral(r)
    ensures StepsAsWritten(angle) <= r < StepsAsWritten(angle) + 1.0
  {
    Ceil(angle / StepAngle) as real
  }

  /** Rounding up keeps the stepping ticks: a tick steps while the whole
      counter k is below the target, and k is below the rounded target
      exactly when it is below the unrounded one. */
  lemma {:induction false} SameSteppingTicks(angle: real, k: int)
    ensures k as real < StepsAsWritten(angle) <==> k as real < StepsFor(angle)
  {
    var x := angle / StepAngle;
    var c := Ceil(x);
    assert StepsFor(angle) == c as real;
    if k as real < c as real {
      assert k < c;
      assert k as real <= (c - 1) as real;
      assert (c - 1) as real < x;
    }
  }

  /** Shape decision and phase split for a target of `total` steps, and the
      reset of the run state. `ny0` is the cruise count left by the previous
      move, which a triangular plan does not overwrite; `c0` is the initial
      period T1Freq * sqrt(ASq / accel). */
  function PlanSteps(total: real, accel: real, decel: real, speed: real, c0: real, ny0: real): (r: Motion)
    requires accel > 0.0 && decel > 0.0
    ensures r.total == total && r.stepCount == 1 && r.ct == c0 && r.armed
    ensures r.mode == Triangular <==> RampSteps(speed, accel) + RampSteps(speed, decel) >= total
    ensures r.mode == Triangular || r.mode == Trapezoidal
  {
    var n1 := RampSteps(speed, accel);
    var n2 := RampSteps(speed, decel);
    if n1 + n2 >= total then
      var a1 := decel * total / (accel + decel);
      Motion(1, total, a1, total - a1, ny0, c0, Triangular, true)
    else
      Motion(1, total, n1, n2, total - n1 - n2, c0, Trapezoidal, true)
  }

  /** A triangular plan re-splits the target in the ratio decel : accel: the
      two ramps cover the target exactly, the accel ramp lies within it, and
      the cruise count is left as it was. */
  lemma TriangularSplit(total: real, accel: real, decel: real, speed: real, c0: real, ny0: real)
    requires accel > 0.0 && decel > 0.0
    requires PlanSteps(total, accel, decel, speed, c0, ny0).mode == Triangular
    ensures var r := PlanSteps(total, accel, decel, speed, c0, ny0);
      && r.n1 + r.n2 == total
      && r.n1 * (accel + decel) == decel * total
      && r.n2 * (accel + decel) == accel * total
      && (total >= 0.0 ==> 0.0 <= r.n1 <= total)
      && r.ny == ny0
  {
  }

  /** With equal acceleration and deceleration a triangular plan is
      symmetric: both ramps are half the target. */
  lemma SymmetricSplit(total: real, rate: real, speed: real, c0: real, ny0: real)
    requires rate > 0.0
    requires PlanSteps(total, rate, rate, speed, c0, ny0).mode == Triangular
    ensures PlanSteps(total, rate, rate, speed, c0, ny0).n1 == total / 2.0
    ensures PlanSteps(total, rate, rate, speed, c0, ny0).n2 == total / 2.0
  {
  }

  /** A trapezoidal plan keeps the theoretical ramps and puts the rest of the
      target into a non-empty cruise phase. */
  lemma TrapezoidalSplit(total: real, accel: real, decel: real, speed: real, c0: real, ny0: real)
    requires accel > 0.0 && decel > 0.0
    requires PlanSteps(total, accel, decel, speed, c0, ny0).mode == Trapezoidal
    ensures var r := PlanSteps(total, accel, decel, speed, c0, ny0);
      && r.n1 == RampSteps(speed, accel)
      && r.n2 == RampSteps(speed, decel)
      && r.ny > 0.0
      && r.n1 + r.ny + r.n2 == total
  {
  }

  /** The planner as the move is started here: the target rounded up to
      whole steps, then split. It establishes the sequencer's invariant, so
      every decelerating tick of the move has a positive ramp denominator. */
  function Plan(angle: real, accel: real, decel: real, speed: real, c0: real, ny0: real): (r: Motion)
    requires accel > 0.0 && decel > 0.0 && c0 > 0.0
    ensures r.total == StepsFor(angle)
    ensures r.stepCount == 1 && r.ct == c0 && r.armed
    ensures Inv(r)
  {
    PlanSteps(StepsFor(angle), accel, decel, speed, c0, ny0)
  }

  /** A planned move completes: after Remaining ticks no step remains, and a
      target of at least one step is reached exactly. */
  lemma PlannedMoveCompletes(angle: real, accel: real, decel: real, speed: real, c0: real, ny0: real)
    requires accel > 0.0 && decel > 0.0 && c0 > 0.0
    ensures var m := Plan(angle, accel, decel, speed, c0, ny0);
      && !Active(Run(m, Remaining(m)))
      && (m.total >= 1.0 ==> Run(m, Remaining(m)).stepCount as real == m.total)
  {
    var m := Plan(angle, accel, decel, speed, c0, ny0);
    RunCompletes(m);
  }

}
