/** The target step count of `start` (step_motor_v1/step_motor.c:64) is not
    rounded. With a fractional target the decel denominator 4 * n2 - 1 of
    the tick handler (lines 132 and 152) can reach zero or go negative. This
    module models the planner as written and exhibits both inputs; the
    whole-step planner `Planner.Plan` is the corrected definition. */
module AsWritten {
  import opened Profile
  import opened Sequencer
  import opened Planner

  /** `start` as written: the target is angle / 1.8 with no rounding. */
  function PlanAsWritten(angle: real, accel: real, decel: real, speed: real, c0: real, ny0: real): (r: Motion)
    requires accel > 0.0 && decel > 0.0
    ensures r.total == StepsAsWritten(angle)
    ensures r.stepCount == 1 && r.ct == c0
  {
    PlanSteps(StepsAsWritten(angle), accel, decel, speed, c0, ny0)
  }

  /** Where angle / 1.8 is a whole number the rounded planner is the
      planner as written. */
  lemma WholeTargetsAgree(angle: real, accel: real, decel: real, speed: real, c0: real, ny0: real)
    requires accel > 0.0 && decel > 0.0 && c0 > 0.0
    requires IsIntegral(angle / StepAngle)
    ensures Plan(angle, accel, decel, speed, c0, ny0) == PlanAsWritten(angle, accel, decel, speed, c0, ny0)
  {
    var x := angle / StepAngle;
    var whole := x.Floor;
    assert x == whole as real;
    assert (-x).Floor == -whole;
    assert Ceil(x) == whole;
    assert StepsFor(angle) == StepsAsWritten(angle);
  }

  /** Elsewhere rounding changes the split: 10 degrees is 50/9 steps as
      written and 6 steps rounded, so the accel boundary moves from 25/9 to 3
      and the tick at step 3 accelerates instead of decelerating. */
  lemma RoundingMovesBoundary(c0: real, ny0: real)
    requires c0 > 0.0
    ensures var written := PlanAsWritten(10.0, DefaultAccel, DefaultDecel, DefaultSpeed, c0, ny0);
      var rounded := Plan(10.0, DefaultAccel, DefaultDecel, DefaultSpeed, c0, ny0);
      && written.n1 == 25.0 / 9.0 && rounded.n1 == 3.0
      && PhaseOf(written.(stepCount := 3)) == Decelerating
      && PhaseOf(rounded.(stepCount := 3)) == Accelerating
  {
    assert StepsAsWritten(10.0) == 50.0 / 9.0;
    assert StepsFor(10.0) == 6.0;
  }

  /** A 1.98 degree move (1.1 steps) with accel 1 and decel 9: the plan is
      triangular with n1 = 0.99 and n2 = 0.11, so the very first tick
      decelerates with denominator -0.56 and the period turns negative. */
  lemma AsWrittenNegativePeriod()
    ensures var m := PlanAsWritten(1.98, 1.0, 9.0, DefaultSpeed, 1.0, 0.0);
      && m.mode == Triangular
      && m.n2 == 0.11
      && PhaseOf(m) == Decelerating
      && DecelDefined(m)
      && Next(m).ct < 0.0
  {
  }

  /** A 2.16 degree move (1.2 steps) with accel 5 and decel 19: n1 = 0.95
      and n2 = 0.25, so the first tick decelerates and divides by zero. */
  lemma AsWrittenDivisionByZero()
    ensures var m := PlanAsWritten(2.16, 5.0, 19.0, DefaultSpeed, 1.0, 0.0);
      && m.mode == Triangular
      && PhaseOf(m) == Decelerating
      && 4.0 * m.n2 - 1.0 == 0.0
  {
  }

  /** With the target rounded to whole steps, at every tick of a move the
      period is positive, and a decelerating tick sees n2 > 1, so its
      denominator exceeds 3. */
  lemma PlannedPeriodsStayPositive(angle: real, accel: real, decel: real, speed: real, c0: real, ny0: real, k: nat)
    requires accel > 0.0 && decel > 0.0 && c0 > 0.0
    ensures var m := Run(Plan(angle, accel, decel, speed, c0, ny0), k);
      && (Active(m) ==> m.ct > 0.0)
      && (PhaseOf(m) == Decelerating ==> m.n2 > 1.0)
  {
    var m := Run(Plan(angle, accel, decel, speed, c0, ny0), k);
    RunPreservesInv(Plan(angle, accel, decel, speed, c0, ny0), k);
    if PhaseOf(m) == Decelerating {
      InvDecelBound(m);
    }
  }
}
