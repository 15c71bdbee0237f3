/** The step sequencer: the htim8 branch of the timer callback
    (step_motor_v1/step_motor.c:114-170) as a function on the motion
    snapshot, the invariant the planner establishes and every tick keeps,
    and what follows from it: monotone periods, a decel denominator that
    never reaches zero, and completion after exactly the planned steps. */
module Sequencer {
  import opened Profile

  /** Phase of the profile, derived from the step counter against the
      planned boundaries (the `status` global is set once and never read). */
  datatype Phase = Accelerating | Cruising | Decelerating | Done

  /** A tick still has a step to emit: step_count < total_steps. */
  predicate Active(m: Motion) {
    (m.stepCount as real) < m.total
  }

  /** Last step index before deceleration: n1 in triangular mode, n1 + ny
      otherwise. */
  function DecelStart(m: Motion): real {
    if m.mode == Triangular then m.n1 else m.n1 + m.ny
  }

  /** The phase the tick handler's nested tests select. */
  function PhaseOf(m: Motion): (p: Phase)
    ensures p == Done <==> !Active(m)
    ensures Active(m) ==> (p == Accelerating <==> m.stepCount as real <= m.n1)
    ensures m.mode == Triangular ==> p != Cruising
    ensures Active(m) && m.mode != Triangular && m.ny >= 0.0 ==>
              (p == Decelerating <==> m.n1 + m.ny < m.stepCount as real)
  {
    var k := m.stepCount as real;
    if !(k < m.total) then Done
    else if k <= m.n1 then Accelerating
    else if m.mode != Triangular && k <= m.n1 + m.ny then Cruising
    else Decelerating
  }

  /** The decel recurrence is defined for this tick (its denominator
      4 * n2 - 1 is non-zero). */
  predicate DecelDefined(m: Motion) {
    PhaseOf(m) == Decelerating ==> 4.0 * m.n2 - 1.0 != 0.0
  }

  /** One tick: while steps remain, update the period by the phase's
      recurrence and advance the counter; afterwards only stop the timer. */
  function Next(m: Motion): (r: Motion)
    requires DecelDefined(m)
    ensures r.total == m.total && r.n1 == m.n1 && r.ny == m.ny && r.mode == m.mode
    ensures Active(m) ==> r.stepCount == m.stepCount + 1 && r.armed == m.armed
    ensures !Active(m) ==> r == m.(armed := false)
    ensures PhaseOf(m) == Decelerating ==> r.n2 == m.n2 - 1.0
    ensures PhaseOf(m) != Decelerating ==> r.n2 == m.n2
    ensures PhaseOf(m) == Cruising ==> r.ct == m.ct
  {
    match PhaseOf(m)
    case Done => m.(armed := false)
    case Accelerating => m.(ct := AccelPeriod(m.ct, m.stepCount), stepCount := m.stepCount + 1)
    case Cruising => m.(stepCount := m.stepCount + 1)
    case Decelerating => m.(ct := DecelPeriod(m.ct, m.n2), n2 := m.n2 - 1.0, stepCount := m.stepCount + 1)
  }

  /** Invariant of a planned move with a whole-number target. While steps
      remain: the counter has started, the period is positive, a
      trapezoidal plan has a cruise phase, n2 still holds the planned decel
      count before deceleration, and during deceleration n2 exceeds the
      steps still to go. */
  ghost predicate Inv(m: Motion) {
    && IsIntegral(m.total)
    && m.stepCount >= 0
    && (Active(m) ==>
          && m.stepCount >= 1
          && m.ct > 0.0
          && m.mode != Unplanned
          && (m.mode == Trapezoidal ==> m.ny > 0.0)
          && (m.stepCount as real <= DecelStart(m) ==> m.n2 == m.total - DecelStart(m))
          && (DecelStart(m) < m.stepCount as real ==> m.total - m.stepCount as real < m.n2))
  }

  /** Under the invariant a decelerating tick sees more than one decel step
      left, so the denominator 4 * n2 - 1 exceeds 3. */
  lemma InvDecelBound(m: Motion)
    requires Inv(m) && PhaseOf(m) == Decelerating
    ensures m.n2 > 1.0
  {
    var whole := m.total.Floor;
    assert m.total == whole as real;
    assert m.stepCount < whole;
    assert m.total - m.stepCount as real == (whole - m.stepCount) as real >= 1.0;
  }

  /** Every tick keeps the invariant. */
  lemma NextPreservesInv(m: Motion)
    requires Inv(m)
    ensures DecelDefined(m)
    ensures Inv(Next(m))
  {
    if PhaseOf(m) == Decelerating {
      InvDecelBound(m);
    }
  }

  /** Period monotonicity: under the invariant the period stays positive,
      falls strictly while accelerating, holds while cruising and rises
      strictly while decelerating. */
  lemma TickPeriod(m: Motion)
    requires Inv(m) && Active(m)
    ensures DecelDefined(m)
    ensures Next(m).ct > 0.0
    ensures PhaseOf(m) == Accelerating ==> Next(m).ct < m.ct
    ensures PhaseOf(m) == Cruising ==> Next(m).ct == m.ct
    ensures PhaseOf(m) == Decelerating ==> Next(m).ct > m.ct
  {
    NextPreservesInv(m);
    if PhaseOf(m) == Decelerating {
      InvDecelBound(m);
    }
  }

  /** The motion after k ticks. */
  ghost function Run(m: Motion, k: nat): Motion
    requires Inv(m)
    decreases k
  {
    if k == 0 then m
    else
      NextPreservesInv(m);
      Run(Next(m), k - 1)
  }

  /** The invariant holds after any number of ticks. */
  lemma {:induction false} RunPreservesInv(m: Motion, k: nat)
    requires Inv(m)
    ensures Inv(Run(m, k))
    decreases k
  {
    if k > 0 {
      RunUnfold(m, k);
      RunPreservesInv(Next(m), k - 1);
    }
  }

  /** Ticks still to emit a step. */
  function Remaining(m: Motion): (r: nat)
    ensures r == 0 <==> !Active(m)
  {
    if Active(m) then Ceil(m.total) - m.stepCount else 0
  }

  /** An active tick uses up exactly one remaining step. */
  lemma RemainingStep(m: Motion)
    requires Inv(m) && Active(m)
    ensures DecelDefined(m)
    ensures Remaining(Next(m)) == Remaining(m) - 1
    ensures !Active(Next(m)) ==> Next(m).stepCount as real == m.total
  {
    NextPreservesInv(m);
    var whole := m.total.Floor;
    assert m.total == whole as real;
    assert Ceil(m.total) == whole;
  }

  /** Termination without overshoot: after exactly Remaining(m) ticks no
      step remains, every earlier tick emitted a step, and a move that was
      under way ends with the counter on the target itself. */
  lemma {:induction false} RunCompletes(m: Motion)
    requires Inv(m)
    ensures !Active(Run(m, Remaining(m)))
    ensures Active(m) ==> Run(m, Remaining(m)).stepCount as real == m.total
    ensures forall j :: 0 <= j < Remaining(m) ==> Active(Run(m, j))
    decreases Remaining(m)
  {
    if Active(m) {
      RemainingStep(m);
      var m' := Next(m);
      var r := Remaining(m);
      RunUnfold(m, r);
      RunCompletes(m');
      assert Run(m, r) == Run(m', r - 1);
      forall j | 0 <= j < Remaining(m)
        ensures Active(Run(m, j))
      {
        if j > 0 {
          RunUnfold(m, j);
        }
      }
    }
  }

  /** One tick, then k - 1 more. */
  lemma RunUnfold(m: Motion, k: nat)
    requires Inv(m) && k > 0
    ensures DecelDefined(m) && Inv(Next(m))
    ensures Run(m, k) == Run(Next(m), k - 1)
  {
    NextPreservesInv(m);
  }

  /** Once no step remains, every further tick only stops the timer: the
      motion state is fixed from then on. */
  lemma {:induction false} AfterCompletion(m: Motion, j: nat)
    requires Inv(m) && !Active(m)
    ensures Run(m, j + 1) == m.(armed := false)
    decreases j
  {
    NextPreservesInv(m);
    if j > 0 {
      AfterCompletion(Next(m), j - 1);
    }
  }
}
