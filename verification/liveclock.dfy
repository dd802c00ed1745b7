/** The single-pattern live clock of the drum machine (the sequencer
    effect, src/App.jsx:558-614): a chain of timeouts, each of which
    advances the active step, plays the drums on that step and waits
    before the next one. Times here are milliseconds after play is
    pressed; the timer itself is not modelled. */
module LiveClock {
  import opened Patterns
  import opened Timing
  import Scheduler

  /** The step after `prev`, wrapping after 15. */
  function NextStep(prev: StepIndex): (r: StepIndex)
    ensures prev < 15 ==> r == prev + 1
    ensures prev == 15 ==> r == 0
  {
    (prev + 1) % StepCount
  }

  /** The wait after step `step` has sounded: one base step, plus the
      swing delay when `step` itself is odd. */
  function DelayAfter(tempo: Tempo, swing: Swing, step: StepIndex): (d: real)
    ensures StepMillis(tempo) <= d
    ensures d == StepMillis(tempo) <==> !IsOdd(step) || swing == 0
  {
    StepMillis(tempo) + SwingOffset(swing, step, StepMillis(tempo))
  }

  /** The sounds played when the clock lands on `step`. */
  function SoundsAt(grid: StepGrid, step: StepIndex): (r: set<Instrument>)
    ensures forall i :: i in r <==> Active(grid, i, step)
  {
    set i | i in grid.Keys && Active(grid, i, step)
  }

  /** One firing of the timeout: the clock moves to the next step, plays
      it, and arms the next timeout. */
  datatype Beat = Beat(step: StepIndex, sounds: set<Instrument>, delay: real)

  function Fire(tempo: Tempo, swing: Swing, grid: StepGrid, activeStep: StepIndex): (b: Beat)
    ensures b.step == activeStep + 1 || (activeStep == StepCount - 1 && b.step == 0)
    ensures forall i :: i in b.sounds <==> i in grid && b.step < |grid[i]| && grid[i][b.step]
    ensures b.delay == StepMillis(tempo) + (if IsOdd(b.step) then OddStepDelay(swing, StepMillis(tempo)) else 0.0)
  {
    var step := NextStep(activeStep);
    Beat(step, SoundsAt(grid, step), DelayAfter(tempo, swing, step))
  }

  /** The step the `j`-th firing (from 0) lands on after play is pressed
      with `start` active. */
  function StepOfFiring(start: StepIndex, j: nat): StepIndex {
    if j == 0 then NextStep(start) else NextStep(StepOfFiring(start, j - 1))
  }

  /** When the `j`-th firing happens: the first timeout is one base step,
      each later one waits the delay armed by the previous firing. */
  function FiringTime(tempo: Tempo, swing: Swing, start: StepIndex, j: nat): real {
    if j == 0 then StepMillis(tempo)
    else FiringTime(tempo, swing, start, j - 1) + DelayAfter(tempo, swing, StepOfFiring(start, j - 1))
  }

  /** The step active when the `j`-th firing happens: the one play was
      pressed on, then the one the previous firing landed on. */
  function ActiveBefore(start: StepIndex, j: nat): StepIndex {
    if j == 0 then start else StepOfFiring(start, j - 1)
  }

  /** The firing chain is `Fire` applied over and over: firing `j` lands
      where `Fire` takes the step active before it, and firing `j + 1`
      follows it by the delay that `Fire` arms. */
  lemma FiringsAreFires(tempo: Tempo, swing: Swing, grid: StepGrid, start: StepIndex, j: nat)
    ensures Fire(tempo, swing, grid, ActiveBefore(start, j)).step == StepOfFiring(start, j)
    ensures FiringTime(tempo, swing, start, j + 1)
            == FiringTime(tempo, swing, start, j) + Fire(tempo, swing, grid, ActiveBefore(start, j)).delay
    ensures forall i :: i in Fire(tempo, swing, grid, ActiveBefore(start, j)).sounds <==> Active(grid, i, StepOfFiring(start, j))
  {
  }

  lemma {:induction false} StepOfFiringClosedForm(start: StepIndex, j: nat)
    ensures StepOfFiring(start, j) == (start + j + 1) % StepCount
  {
    if j > 0 {
      StepOfFiringClosedForm(start, j - 1);
    }
  }

  /** Wrapping at 16 keeps a step's parity. */
  lemma ParityWraps(j: nat)
    ensures (j % StepCount) % 2 == j % 2
  {
    var q := j / StepCount;
    assert j == StepCount * q + j % StepCount;
    assert StepCount * q == 2 * (8 * q);
  }

  /** The sum of the waits after steps `0..n-1` with base step `b` and
      swing delay `o`: the firing time of a reset clock counts the
      initial timeout as the wait after step 0. */
  function Waits(b: real, o: real, n: nat): real {
    if n == 0 then 0.0 else Waits(b, o, n - 1) + (b + (if (n - 1) % 2 == 1 then o else 0.0))
  }

  lemma {:induction false} WaitsClosedForm(b: real, o: real, n: nat)
    ensures Waits(b, o, n) == n as real * b + (n / 2) as real * o
  {
    if n > 0 {
      var m := n - 1;
      WaitsClosedForm(b, o, m);
      OneMore(n, m, true, b);
      OneMore(n / 2, m / 2, m % 2 == 1, o);
    }
  }

  /** `k` copies of `x` are `k'` copies and, when `extra` holds, one more. */
  lemma OneMore(k: nat, k': nat, extra: bool, x: real)
    requires k == k' + (if extra then 1 else 0)
    ensures k as real * x == k' as real * x + (if extra then x else 0.0)
  {
    assert k as real * x - k' as real * x == (k as real - k' as real) * x;
  }

  /** From a stopped clock at step 0, firing `j` happens once the waits
      after steps 0..j have elapsed, the first of them being the initial
      timeout. */
  lemma {:induction false} FiringTimeFromReset(tempo: Tempo, swing: Swing, j: nat)
    ensures FiringTime(tempo, swing, 0, j) == Waits(StepMillis(tempo), OddStepDelay(swing, StepMillis(tempo)), j + 1)
  {
    if j > 0 {
      FiringTimeFromReset(tempo, swing, j - 1);
      var step := StepOfFiring(0, j - 1);
      StepOfFiringClosedForm(0, j - 1);
      assert step == j % StepCount;
      WaitAfterFiring(tempo, swing, j, step);
      assert FiringTime(tempo, swing, 0, j) == FiringTime(tempo, swing, 0, j - 1) + DelayAfter(tempo, swing, step);
      var b, o := StepMillis(tempo), OddStepDelay(swing, StepMillis(tempo));
      assert Waits(b, o, j + 1) == Waits(b, o, j) + (b + (if j % 2 == 1 then o else 0.0));
    }
  }

  /** The wait armed by firing `j - 1`, which lands on step `j % 16`, is
      the `j`-th term of `Waits`. */
  lemma WaitAfterFiring(tempo: Tempo, swing: Swing, j: nat, step: StepIndex)
    requires step == j % StepCount
    ensures DelayAfter(tempo, swing, step)
            == StepMillis(tempo) + (if j % 2 == 1 then OddStepDelay(swing, StepMillis(tempo)) else 0.0)
  {
    ParityWraps(j);
    if j % 2 == 1 {
      assert IsOdd(step);
    } else {
      assert !IsOdd(step);
    }
  }

  /** The clock's swing lengthens the wait AFTER an odd step, so an odd
      step sounds on the straight grid and the even step after it is the
      one pushed back, as in the arrangement scheduler; the export delays
      the odd step itself. */
  lemma SwingFollowsOddStep(tempo: Tempo, swing: Swing)
    requires swing > 0
    ensures FiringTime(tempo, swing, 0, 0) == StepMillis(tempo)
    ensures FiringTime(tempo, swing, 0, 1) - FiringTime(tempo, swing, 0, 0) > StepMillis(tempo)
    ensures FiringTime(tempo, swing, 0, 2) - FiringTime(tempo, swing, 0, 1) == StepMillis(tempo)
  {
    FiringTimeFromReset(tempo, swing, 1);
    FiringTimeFromReset(tempo, swing, 2);
    assert OddStepDelay(swing, StepMillis(tempo)) == SwingOffset(swing, 1, StepMillis(tempo));
  }

  lemma {:induction false} WaitsInMillis(p: Pattern, n: nat)
    ensures Waits(StepMillis(p.tempo), OddStepDelay(p.swing, StepMillis(p.tempo)), n) == 1000.0 * Scheduler.LiveSteps(p, n)
  {
    if n > 0 {
      WaitsInMillis(p, n - 1);
      MillisScale(p.swing, StepSeconds(p.tempo));
    }
  }

  /** Sixteen firings bring the clock back to the step it started on. */
  lemma SixteenFiringsComeBack(start: StepIndex)
    ensures StepOfFiring(start, StepCount - 1) == start
  {
    StepOfFiringClosedForm(start, StepCount - 1);
  }

  /** Sixteen firings after play is pressed, one bar later, take the same
      time, in milliseconds, as a pattern played by the arrangement
      scheduler: sixteen base steps plus eight swing delays. */
  lemma BarLength(p: Pattern)
    ensures FiringTime(p.tempo, p.swing, 0, StepCount - 1) == 1000.0 * Scheduler.LiveSteps(p, StepCount)
  {
    FiringTimeFromReset(p.tempo, p.swing, StepCount - 1);
    WaitsInMillis(p, StepCount);
  }

  lemma MillisScale(swing: Swing, d: real)
    requires d > 0.0
    ensures OddStepDelay(swing, 1000.0 * d) == 1000.0 * OddStepDelay(swing, d)
  {
  }
}
