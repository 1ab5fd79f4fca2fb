/**
 * The percentage shown by the `ProgressBar` component of
 * src/components/ProgressBar/index.tsx: `Math.min(Math.max(progress, 0), 100)`.
 */
module ProgressBar {

  /** The clamped percentage: always within [0, 100], and a value already there is kept. */
  function Percentage(progress: real): (r: real)
    ensures 0.0 <= r <= 100.0
    ensures 0.0 <= progress <= 100.0 ==> r == progress
    ensures progress < 0.0 ==> r == 0.0
    ensures progress > 100.0 ==> r == 100.0
  {
    var atLeastZero := if progress > 0.0 then progress else 0.0;
    if atLeastZero < 100.0 then atLeastZero else 100.0
  }

  /** Clamping a clamped value changes nothing. */
  lemma PercentageIdempotent(progress: real)
    ensures Percentage(Percentage(progress)) == Percentage(progress)
  {
  }

  /** A larger progress never shows a smaller percentage. */
  lemma PercentageMonotone(a: real, b: real)
    requires a <= b
    ensures Percentage(a) <= Percentage(b)
  {
  }
}
