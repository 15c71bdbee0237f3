/** The motor driver of step_motor_v1/step_motor.c: the module-level motion
    globals as the fields of one object, `start` and the htim8 branch of
    the timer callback as the methods that update them in place. */
module StepMotor {
  import opened Profile
  import opened Sequencer
  import opened Planner

  class Motor {
    /** Motion configuration: the accel, decel and speed globals, which no
        code path of the driver writes. */
    const accel: real
    const decel: real
    const speed: real

    var stepCount: int    // step_count
    var totalSteps: real  // total_steps
    var status: int       // set to 1 (accelerating) by Start and never updated
    var c0: real          // initial period
    var ct: real          // current period
    var n1: real          // accel-phase boundary
    var n2: real          // decel steps still to go
    var ny: real          // cruise-phase step count
    var n: real           // sum of the two theoretical ramps
    var mode: Shape
    var armed: bool       // the step timer's interrupt is running

    /** The motion globals as a value. */
    function State(): Motion
      reads this
    {
      Motion(stepCount, totalSteps, n1, n2, ny, ct, mode, armed)
    }

    ghost predicate Valid()
      reads this
    {
      accel > 0.0 && decel > 0.0 && Inv(State())
    }

    /** Power-up: the motion-state globals are zero and the timer is stopped.
        The configuration is a parameter (0.5, 0.5 and 20 in the source). */
    constructor(accel: real, decel: real, speed: real)
      requires accel > 0.0 && decel > 0.0
      ensures Valid()
      ensures this.accel == accel && this.decel == decel && this.speed == speed
      ensures State() == Idle && status == 0 && c0 == 0.0 && n == 0.0
    {
      this.accel, this.decel, this.speed := accel, decel, speed;
      stepCount, totalSteps, status := 0, 0.0, 0;
      c0, ct := 0.0, 0.0;
      n1, n2, ny, n := 0.0, 0.0, 0.0, 0.0;
      mode, armed := Unplanned, false;
    }

    /** Starts a move of `angle` degrees. `c0` is the initial period
        T1Freq * sqrt(ASq / accel), positive since accel is. The target is
        rounded up to whole steps; the rest follows `start` line by line,
        including that a triangular plan leaves ny as it was. */
    method Start(angle: real, c0: real)
      requires accel > 0.0 && decel > 0.0 && c0 > 0.0
      modifies this
      ensures Valid()
      ensures State() == Plan(angle, accel, decel, speed, c0, old(ny))
      ensures status == 1 && this.c0 == c0
      ensures n == RampSteps(speed, accel) + RampSteps(speed, decel)
    {
      ghost var plan := Plan(angle, accel, decel, speed, c0, ny);
      totalSteps := StepsFor(angle);
      this.c0 := c0;
      n1 := RampSteps(speed, accel);
      n2 := RampSteps(speed, decel);
      n := n1 + n2;
      armed := true;
      ct := c0;
      if n >= totalSteps {
        mode := Triangular;
        n1 := decel * totalSteps / (accel + decel);
        n2 := totalSteps - n1;
      } else {
        mode := Trapezoidal;
        ny := totalSteps - n1 - n2;
      }
      status := 1;
      stepCount := 1;
      assert State() == plan;
    }

    /** One step-timer interrupt. While steps remain it dispatches on the
        mode and the counter exactly as the callback does, updates the
        period, and advances the counter; afterwards it only stops the
        timer. The new state is one step of the sequencer, and each active
        tick uses up one remaining step. */
    method Tick()
      requires Valid()
      modifies this
      ensures Valid()
      ensures DecelDefined(old(State()))
      ensures State() == Next(old(State()))
      ensures status == old(status) && c0 == old(c0) && n == old(n)
      ensures old(Active(State())) ==> Remaining(State()) == old(Remaining(State())) - 1
    {
      ghost var before := State();
      NextPreservesInv(before);
      if stepCount as real < totalSteps {
        RemainingStep(before);
        if mode == Triangular {
          if stepCount as real <= n1 {
            ct := AccelPeriod(ct, stepCount);
          } else {
            InvDecelBound(before);
            ct := DecelPeriod(ct, n2);
            n2 := n2 - 1.0;
          }
        } else {
          if stepCount as real <= n1 {
            ct := AccelPeriod(ct, stepCount);
          } else if stepCount as real > n1 && stepCount as real <= n1 + ny {
            // cruising: the period holds
          } else {
            InvDecelBound(before);
            ct := DecelPeriod(ct, n2);
            n2 := n2 - 1.0;
          }
        }
        stepCount := stepCount + 1;
      } else {
        armed := false;
      }
      assert State() == Next(before);
    }
  }
}
