/** Elapsed times in milliseconds, as the screens bucket them with `Math.floor`. */
module Durations {
  const MinuteMs := 60000
  const HourMs := 3600000
  const DayMs := 86400000

  /** `Math.floor(a / b)` for a positive divisor is Dafny's division, and flooring in
      steps equals flooring once: seconds to minutes to hours to days. */
  lemma FlooredSteps(a: int)
    ensures a / 1000 / 60 == a / MinuteMs
    ensures a / MinuteMs / 60 == a / HourMs
    ensures a / HourMs / 24 == a / DayMs
  {
    var s, m, h := a / 1000, a / MinuteMs, a / HourMs;
    assert 1000 * s <= a < 1000 * s + 1000;
    assert 60000 * (s / 60) <= a < 60000 * (s / 60) + 60000;
    assert 60000 * m <= a < 60000 * m + 60000;
    assert 3600000 * (m / 60) <= a < 3600000 * (m / 60) + 3600000;
    assert 3600000 * h <= a < 3600000 * h + 3600000;
    assert 86400000 * (h / 24) <= a < 86400000 * (h / 24) + 86400000;
  }
}
