/** The tempo and swing arithmetic shared by the live clock, the live
    arrangement scheduler and the offline renderer. All three compute a
    step's length as `(60 / tempo) / 4` (in seconds, or with 60000 for
    milliseconds) and push odd steps back by
    `(swing / 100) * (stepLength * 0.66667)`. */
module Timing {
  import opened Patterns

  /** The literal two-thirds approximation written in the source. */
  const SwingFactor: real := 0.66667

  /** Length of one sixteenth-note step in seconds (src/AudioRenderer.jsx:21,
      src/Arrangement.jsx:53). */
  function StepSeconds(tempo: Tempo): (d: real)
    ensures d == 15.0 / tempo as real
    ensures 1.0 / 12.0 <= d <= 0.25
  {
    (60.0 / tempo as real) / 4.0
  }

  /** Length of one step in milliseconds, as the live clock computes it
      (src/App.jsx:568). */
  function StepMillis(tempo: Tempo): (d: real)
    ensures d == 15000.0 / tempo as real
    ensures d == 1000.0 * StepSeconds(tempo)
  {
    (60000.0 / tempo as real) / 4.0
  }

  predicate IsOdd(step: nat) {
    step % 2 == 1
  }

  /** A fraction of a positive quantity lies between none of it and all
      of it, and is none of it only for the fraction 0. */
  lemma FractionOf(f: real, x: real)
    requires 0.0 <= f <= 1.0 && x > 0.0
    ensures 0.0 <= f * x <= x
    ensures f * x == 0.0 <==> f == 0.0
  {
    if f > 0.0 {
      assert f * x > 0.0;
    }
    assert x - f * x == (1.0 - f) * x;
  }

  /** The swing delay of `step`, for a step of length `stepLength`. */
  function SwingOffset(swing: Swing, step: nat, stepLength: real): (r: real)
    requires stepLength > 0.0
    ensures 0.0 <= r <= stepLength * SwingFactor
    ensures r < stepLength
    ensures r == 0.0 <==> !IsOdd(step) || swing == 0
  {
    if IsOdd(step) then
      var fraction := swing as real / 100.0;
      var reach := stepLength * SwingFactor;
      FractionOf(fraction, reach);
      fraction * reach
    else 0.0
  }

  /** A later step, even one not swung, comes after an earlier swung one:
      the swing delay is less than a step. */
  lemma OffsetOrder(n: real, n': real, d: real, w: real, w': real)
    requires n + 1.0 <= n' && d > 0.0 && 0.0 <= w < d && 0.0 <= w'
    ensures n * d + w < n' * d + w'
  {
    MulNonneg(n' - n - 1.0, d);
    assert (n' - n - 1.0) * d == n' * d - n * d - d;
  }

  /** A step among the first `m`, swung by less than a step, falls within
      `m` steps. */
  lemma OffsetWithin(n: real, m: real, d: real, w: real)
    requires 0.0 <= n && n + 1.0 <= m && d > 0.0 && 0.0 <= w < d
    ensures 0.0 <= n * d + w < m * d
  {
    MulNonneg(n, d);
    MulNonneg(m - n - 1.0, d);
    assert (m - n - 1.0) * d == m * d - n * d - d;
  }

  lemma MulNonneg(a: real, b: real)
    requires a >= 0.0 && b >= 0.0
    ensures a * b >= 0.0
  {
  }

  /** Every odd step of a pattern is delayed by the same amount. */
  function OddStepDelay(swing: Swing, stepLength: real): (r: real)
    requires stepLength > 0.0
    ensures forall step: nat :: IsOdd(step) ==> SwingOffset(swing, step, stepLength) == r
  {
    (swing as real / 100.0) * (stepLength * SwingFactor)
  }
}
