/** Instants and durations are integers, in microseconds since an epoch that fell on a Thursday. */
module Time {
  const SECOND := 1_000_000
  const MINUTE := 60 * SECOND
  const HOUR := 60 * MINUTE
  const DAY := 24 * HOUR
  const WEEK := 7 * DAY

  /** The UTC day of an instant. */
  function DayOf(now: int): int { now / DAY }

  /** Days since Monday. */
  function Weekday(now: int): int { (DayOf(now) + 3) % 7 }

  /** Monday 00:00 of the instant's week. */
  function WeekStart(now: int): int { (DayOf(now) - Weekday(now)) * DAY }

  /** A week is the half-open interval of seven days its Monday starts, and every instant is in one. */
  lemma WeekHolds(now: int)
    ensures WeekStart(now) <= now < WeekStart(now) + WEEK
    ensures WeekStart(now) % DAY == 0
  {
    assert DayOf(now) * DAY <= now < (DayOf(now) + 1) * DAY;
  }

  /** An instant is in the week that starts where its own week starts, and in no other. */
  lemma SameWeek(a: int, b: int)
    ensures WeekStart(a) == WeekStart(b) <==> WeekStart(b) <= a < WeekStart(b) + WEEK
  {
    WeekHolds(a);
    var monday := DayOf(b) - Weekday(b);
    assert (monday + 3) % 7 == 0;
    if WeekStart(b) <= a < WeekStart(b) + WEEK {
      assert monday <= DayOf(a) < monday + 7;
      assert Weekday(a) == DayOf(a) - monday;
    }
  }

  /** The fifth day after the epoch was a Monday, and weeks are seven days of 86,400 seconds. */
  lemma KnownMonday()
    ensures WeekStart(4 * 86_400_000_000) == 4 * 86_400_000_000
    ensures WeekStart(4 * 86_400_000_000 - 1) == -3 * 86_400_000_000
    ensures WEEK == 7 * 86_400_000_000 && HOUR == 3_600_000_000 && MINUTE == 60_000_000
  {
    assert DayOf(4 * DAY) == 4 && DayOf(4 * DAY - 1) == 3;
  }
}
