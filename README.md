# Stepper motor trapezoidal profile — a Dafny model

This project models the motion-profile core of a non-blocking stepper motor
driver (`step_motor_v1/step_motor.c`). It has two parts, and both work on the
same module-level globals:

- **The profile planner, `start(angle)`.** It turns an angle into a target
  step count at 1.8 degrees per step. It computes the theoretical
  acceleration and deceleration ramp lengths `n1 = speed² / (0.0628·accel)`
  and `n2 = speed² / (0.0628·decel)`. Then it picks the profile:
  - triangular (mode 1) when `n1 + n2 >= total_steps`: the target is re-split in the ratio decel : accel;
  - trapezoidal (mode 2) otherwise: the cruise count `ny` takes the rest.

  Finally it resets the run state: `ct = c0`, `status = 1`, `step_count = 1`.
- **The step sequencer, the htim8 branch of the timer callback.** On each
  tick, while `step_count < total_steps`, it finds the phase by comparing
  `step_count` with `n1` and `n1 + ny`. It updates the period `ct`:
  - accelerating: `ct - 2ct/(4·step_count + 1)`;
  - cruising: unchanged;
  - decelerating: `ct + 2ct/(4·n2 - 1)`, after which `n2` goes down by one.

  Then it increments `step_count`. Once the target is reached, a tick only
  stops the timer.

Layout:

- `profile.dfy` (module `Profile`): the calibration constants, as named
  constants; the snapshot `Motion` of the globals; the ramp length; and the
  two period recurrences.
- `sequencer.dfy` (module `Sequencer`):
  - the phase a tick selects (`PhaseOf`) and one tick as a function (`Next`);
  - the invariant `Inv` that a planned move keeps;
  - the consequences: monotone periods, a deceleration denominator above 3, completion after exactly the planned steps, and a fixed state afterwards.
- `planner.dfy` (module `Planner`): the planner as functions on values, and
  its split lemmas.
- `as_written.dfy` (module `AsWritten`): the planner as written, which does
  not round the target. It holds the two inputs that break the deceleration
  ramp, and it relates the written planner to the rounded one.
- `scenarios.dfy` (module `Scenarios`): concrete moves under the default
  configuration (accel 0.5, decel 0.5, speed 20).
- `step_motor.dfy` (module `StepMotor`): class `Motor`. Its fields are the
  globals. `Start` and `Tick` update them in place, as the C functions do.
  Each method is proved to produce the state given by `Planner.Plan` or by
  `Sequencer.Next`.

Modelling decisions:

- The counter, target, ramp and period globals of the source are `float`s;
  `status` and `mode` are `int`s. The model uses exact `real`s for the
  floats. The one exception is `step_count`: it only ever holds whole
  numbers, so it is an `int`. `mode` becomes the datatype `Shape`.
- The phase is derived from `step_count`, because the source sets `status`
  once and never reads it again. `status` is still a field, because the
  source has that global.
- In a triangular plan, `ny` is not written. It keeps the value left by the
  previous move, and the tick's triangular branch never reads it. The model
  does the same: it carries the old `ny` into the plan.
- Starting and stopping the step-timer interrupt is kept as the boolean
  `armed`.
- `c0` is `T1_FREQ·sqrt(A_SQ/accel)`. It is taken as a positive input.
- `accel` and `decel` must be positive because the source divides by them.
  They are the object's constant configuration.
- The code has none of the following, so the model has none either:
  - a `Busy` or `InvalidMove` result;
  - an abort operation;
  - a rejection of non-positive step counts;
  - a phase variable that the tick updates.
- With the code's constants, a full turn (200 steps) is a triangular move,
  not a trapezoidal one. Both ramps are about 12739 steps under the defaults.
  `Scenarios.FullTurnIsTriangular` proves this.

## Model

| member | source | states |
|---|---|---|
| `Profile.RampSteps` | step_motor_v1/step_motor.c:74-75 | The theoretical ramp length n satisfies n·0.0628·rate = speed² and is never negative. |
| `Profile.AccelPeriod` | step_motor_v1/step_motor.c:124-127 | The accelerating period is ct·(4k−1)/(4k+1). For ct > 0 and k ≥ 1 it lies strictly between 0 and ct, so the speed rises. |
| `Profile.DecelPeriod` | step_motor_v1/step_motor.c:129-133 | The decelerating period is ct·(4n2+1)/(4n2−1). It is strictly above ct when n2 > 1/4. It is negative when −1/4 < n2 < 1/4. |
| `Planner.StepsAsWritten` | step_motor_v1/step_motor.c:64 | The unrounded target times 1.8 gives back the angle. |
| `Planner.StepsFor` | step_motor_v1/step_motor.c:63-64 | The rounded target is a whole number, at least angle/1.8 and less than one step above it. |
| `Planner.SameSteppingTicks` | step_motor_v1/step_motor.c:64 | For every whole counter k, k is below the rounded target exactly when it is below angle/1.8, so rounding up keeps the set of stepping ticks of line 119. |
| `Planner.PlanSteps` | step_motor_v1/step_motor.c:61-104 | The plan keeps the target and resets the run state to step 1 with period c0 and the timer running. It is triangular exactly when the two theoretical ramps cover the target, and trapezoidal otherwise. |
| `Planner.TriangularSplit` | step_motor_v1/step_motor.c:86-91 | A triangular plan re-splits the target in the ratio decel : accel (n1·(a+d) = d·T, n2·(a+d) = a·T). Then n1 + n2 = T. For T ≥ 0, 0 ≤ n1 ≤ T. ny is left unchanged. |
| `Planner.SymmetricSplit` | step_motor_v1/step_motor.c:90-91 | With accel = decel, a triangular plan has n1 = n2 = T/2. |
| `Planner.TrapezoidalSplit` | step_motor_v1/step_motor.c:74-97 | A trapezoidal plan keeps both theoretical ramps. Its cruise count is positive, and n1 + ny + n2 = T. |
| `Planner.Plan` | step_motor_v1/step_motor.c:61-104 | The whole-step planner starts at step 1 with period c0 and the timer running. It establishes the sequencer invariant `Inv`. |
| `Planner.PlannedMoveCompletes` | step_motor_v1/step_motor.c:119-169 | Every planned move stops after `Remaining` ticks. A target of at least one step is reached exactly. |
| `Sequencer.PhaseOf` | step_motor_v1/step_motor.c:119-155 | The tick's nested tests pick Done exactly when no step remains, and Accelerating exactly when step_count ≤ n1. A triangular plan never cruises. In a trapezoidal plan, deceleration is exactly step_count > n1 + ny. |
| `Sequencer.Next` | step_motor_v1/step_motor.c:117-170 | A tick never changes total, n1, ny or mode. An active tick advances the counter by exactly one. A tick after completion changes nothing but stopping the timer. n2 drops by one in deceleration and is unchanged otherwise. Cruising keeps the period. |
| `Sequencer.InvDecelBound` | step_motor_v1/step_motor.c:129-153 | Under the invariant, a decelerating tick has n2 > 1, so 4·n2 − 1 > 3. |
| `Sequencer.NextPreservesInv` | step_motor_v1/step_motor.c:119-169 | Every tick of a move that satisfies the invariant is defined and keeps the invariant. |
| `Sequencer.TickPeriod` | step_motor_v1/step_motor.c:121-155 | During a move the period stays positive. It falls strictly while accelerating, holds while cruising and rises strictly while decelerating. |
| `Sequencer.RunPreservesInv` | step_motor_v1/step_motor.c:114-170 | The invariant holds after any number of ticks. |
| `Sequencer.Remaining` | step_motor_v1/step_motor.c:119 | The number of remaining ticks is zero exactly when no step remains. |
| `Sequencer.RemainingStep` | step_motor_v1/step_motor.c:119-163 | Each active tick uses up exactly one remaining tick. When the last step is taken, the counter equals the target. |
| `Sequencer.RunCompletes` | step_motor_v1/step_motor.c:119-169 | After exactly `Remaining(m)` ticks no step remains, and every earlier tick was active. A move under way ends with step_count = total_steps, with no overshoot. |
| `Sequencer.AfterCompletion` | step_motor_v1/step_motor.c:165-169 | Once the target is reached, any number of further ticks leaves the motion state fixed, with the timer stopped. |
| `AsWritten.PlanAsWritten` | step_motor_v1/step_motor.c:61-104 | The planner as written has the unrounded target angle/1.8, and starts at step 1 with period c0. |
| `AsWritten.WholeTargetsAgree` | step_motor_v1/step_motor.c:61-104 | When angle/1.8 is a whole number, the rounded planner gives exactly the plan of `start` as written. |
| `AsWritten.RoundingMovesBoundary` | step_motor_v1/step_motor.c:64-91 | At 10° with the defaults, the written plan has n1 = 25/9 and the rounded plan n1 = 3, so the tick at step 3 decelerates as written and accelerates in the rounded plan. |
| `AsWritten.AsWrittenNegativePeriod` | step_motor_v1/step_motor.c:61-133 | A 1.98° move with accel 1 and decel 9 plans n2 = 0.11. Its first tick decelerates, and the new period is negative. |
| `AsWritten.AsWrittenDivisionByZero` | step_motor_v1/step_motor.c:61-133 | A 2.16° move with accel 5 and decel 19 plans n2 = 0.25. Its first tick decelerates with a zero denominator. |
| `AsWritten.PlannedPeriodsStayPositive` | step_motor_v1/step_motor.c:129-153 | With whole-step targets, at every tick of every move the period is positive, and a decelerating tick has n2 > 1. |
| `Scenarios.EighteenDegreeMove` | step_motor_v1/step_motor.c:61-104 | 18° is 10 steps, a symmetric 5 + 5 triangular plan. The move takes 9 stepping ticks and ends on step 10. |
| `Scenarios.FullTurnIsTriangular` | step_motor_v1/step_motor.c:74-91 | 360° is 200 steps, a triangular 100 + 100 plan under the defaults. |
| `Scenarios.LongMoveIsTrapezoidal` | step_motor_v1/step_motor.c:74-97 | 46800° is 26000 steps, a trapezoidal plan with cruise count 26000 − 2·400/0.0314 > 0. |
| `StepMotor.Motor.constructor` | step_motor_v1/step_motor.c:20-50 | At power-up the motion-state globals are zero and the timer is stopped; the invariant holds. The configuration (accel, decel, speed; 0.5, 0.5 and 20 in the source) is a constructor parameter. |
| `StepMotor.Motor.Start` | step_motor_v1/step_motor.c:61-104 | Start overwrites the globals with `Planner.Plan` of the angle. It also sets status = 1, c0, and n = the sum of the theoretical ramps, and leaves the invariant holding. |
| `StepMotor.Motor.Tick` | step_motor_v1/step_motor.c:114-170 | The mode-and-counter dispatch of the callback produces exactly `Sequencer.Next` of the old state. It keeps the invariant, leaves status, c0 and n alone, and each active tick uses up one remaining tick. |

## Findings

| source | as written | input that shows it | evidently intended | confidence | as-written member | corrected member |
|---|---|---|---|---|---|---|
| step_motor_v1/step_motor.c:64 | `total_steps = angle / 1.8` is never rounded. With a fractional target, the deceleration denominator `4·n2 − 1` (lines 132 and 152) can reach zero or go negative on the last decelerating tick. | angle 1.98 (1.1 steps), accel 1, decel 9: the first tick runs with n2 = 0.11 and sets a negative period. angle 2.16 (1.2 steps), accel 5, decel 19: n2 = 0.25, a division by zero. | The target is a whole number of steps; here it is rounded up, which keeps the number of stepping ticks. Every decelerating tick then has n2 > 1, and periods stay positive and rise. | medium, not executed | `AsWritten.AsWrittenNegativePeriod` | `AsWritten.PlannedPeriodsStayPositive` |

The defaults (accel = decel = 0.5, speed 20) do not trigger this finding,
by a hand computation that is not proved here. With accel = decel, a
triangular plan keeps n2 at or above 1/2 on its last decelerating tick. The
default ramps are 400/0.0314 steps, whose fractional part is about 0.85, so a
trapezoidal plan keeps n2 at or above about 0.85. Both bounds keep the
denominator positive. The failing inputs need accel and decel to differ.

## Left out

- `Planner.StepsFor`: rounds angle/1.8 up, where line 64 keeps the fraction. The number of stepping ticks is the same (`Planner.SameSteppingTicks`). The target is not.
- `Planner.Plan`: for every angle where angle/1.8 is not a whole number, its n1, n2 and ny differ from those of `start` as written. The shape can differ too: 45859.5° (25477.5 steps) is triangular as written and trapezoidal here. So the period sequence after `Start` differs from the source's for such angles, and `AsWritten.RoundingMovesBoundary` gives one example. For whole-step angles the two agree (`AsWritten.WholeTargetsAgree`).
- `StepMotor.Motor.Start`: the target is rounded up to whole steps rather than left as angle/1.8, which is the correction described under Findings. `AsWritten.PlanAsWritten` models the unrounded target.
- Timer programming is not modelled: starting the interrupt, writing the auto-reload and compare registers, enabling the counter, one-pulse output, and stopping the interrupt. Only starting and stopping is kept, as `armed`. These calls act on hardware.
- The TIM7 system-tick branch (`HAL_IncTick`) is housekeeping with no bearing on the motion.
- The `sqrt` in the initial period `c0` is not modelled; `c0` is a positive input.
- The cruise period `cm` is not modelled, because no tick reads it. `T1Freq`, `ASq` and `CruiseK` are kept only as named constants.
- IEEE `float` rounding is not modelled; all values are exact reals.
- The truncation of `ct` into the integer auto-reload register is not modelled.
- The unused globals `min_delay` and `period` are left out.
- Reentrancy is not modelled: `start` during a running move simply overwrites the globals, as in the code. The code has no guard or abort.
