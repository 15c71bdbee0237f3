/** Concrete moves under the default configuration (accel 0.5, decel 0.5,
    speed 20): both theoretical ramps are 400 / 0.0314, about 12739 steps,
    so any move shorter than about 25478 steps is triangular. */
module Scenarios {
  import opened Profile
  import opened Sequencer
  import opened Planner

  /** 18 degrees is 10 steps: a symmetric triangular profile of 5 + 5
      steps; the move emits 9 stepping ticks and stops with the counter on
      10. */
  lemma EighteenDegreeMove(c0: real, ny0: real)
    requires c0 > 0.0
    ensures var m := Plan(18.0, DefaultAccel, DefaultDecel, DefaultSpeed, c0, ny0);
      && m.total == 10.0
      && m.mode == Triangular
      && m.n1 == 5.0 && m.n2 == 5.0
      && Remaining(m) == 9
      && Run(m, 9).stepCount == 10
      && !Active(Run(m, 9))
  {
  }

  /** A full turn, 200 steps, is still far below the two theoretical ramps:
      the plan is triangular, 100 + 100 steps, with no cruise phase. */
  lemma FullTurnIsTriangular(c0: real, ny0: real)
    requires c0 > 0.0
    ensures var m := Plan(360.0, DefaultAccel, DefaultDecel, DefaultSpeed, c0, ny0);
      && m.total == 200.0
      && m.mode == Triangular
      && m.n1 == 100.0 && m.n2 == 100.0
  {
  }

  /** 130 turns, 26000 steps, exceed the two ramps: the plan is trapezoidal
      with a cruise phase of 26000 - 2 * 400 / 0.0314 steps. */
  lemma LongMoveIsTrapezoidal(c0: real, ny0: real)
    requires c0 > 0.0
    ensures var m := Plan(46800.0, DefaultAccel, DefaultDecel, DefaultSpeed, c0, ny0);
      && m.total == 26000.0
      && m.mode == Trapezoidal
      && m.ny == 26000.0 - 2.0 * (400.0 / 0.0314)
      && m.ny > 0.0
  {
  }
}
