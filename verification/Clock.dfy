/**
 Instants and durations as whole microseconds on one fixed-offset local clock, which is the
 resolution of the source's datetime values.  Day 0 is a Monday.
 */
module Clock {

  const MINUTE: int := 60_000_000
  const HOUR: int := 60 * MINUTE
  const DAY: int := 24 * HOUR

  /** The time of day, as an offset from midnight. */
  type TimeOfDay = t: int | 0 <= t < DAY

  function DayOf(t: int): int {
    t / DAY
  }

  function Midnight(day: int): int {
    day * DAY
  }

  function TimeOf(t: int): TimeOfDay {
    t % DAY
  }

  /** Monday is 0. */
  function Weekday(day: int): int {
    day % 7
  }

  function Max(a: int, b: int): int {
    if a < b then b else a
  }

  function Min(a: int, b: int): int {
    if a < b then a else b
  }

  lemma DayBounds(t: int)
    ensures Midnight(DayOf(t)) <= t < Midnight(DayOf(t) + 1)
    ensures TimeOf(t) == t - Midnight(DayOf(t))
  {
  }

  lemma DayUnique(day: int, t: int)
    requires Midnight(day) <= t < Midnight(day + 1)
    ensures DayOf(t) == day
  {
  }

  lemma DayMonotone(a: int, b: int)
    requires a <= b
    ensures DayOf(a) <= DayOf(b)
  {
  }

  lemma MulGap(k: int, step: int)
    requires 0 < step
    ensures 1 <= k ==> step <= k * step
    ensures k <= -1 ==> k * step <= -step
  {
  }

  /** Two points of one step-spaced progression that are less than a step apart coincide. */
  lemma ProgressionGap(anchor: int, step: int, a: int, b: int)
    requires 0 < step
    requires (a - anchor) % step == 0 && (b - anchor) % step == 0
    requires a <= b < a + step
    ensures a == b
  {
    var i, j := (a - anchor) / step, (b - anchor) / step;
    assert a - anchor == i * step && b - anchor == j * step;
    assert (j - i) * step == j * step - i * step;
    MulGap(j - i, step);
  }

  lemma ProgressionStep(anchor: int, step: int, a: int)
    requires 0 < step && (a - anchor) % step == 0
    ensures (a + step - anchor) % step == 0
  {
    var i := (a - anchor) / step;
    assert a - anchor == i * step;
    MultipleMod(i + 1, step);
    assert a + step - anchor == (i + 1) * step;
  }

  lemma MultipleMod(i: int, step: int)
    requires 0 < step
    ensures (i * step) % step == 0
  {
    var q, r := (i * step) / step, (i * step) % step;
    assert i * step == q * step + r;
    assert (i - q) * step == r;
    MulGap(i - q, step);
  }
}
