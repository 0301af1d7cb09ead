/**
 * The calendar that decides whether two instants fall on the same day.
 * Instants are whole seconds since the epoch; days are counted in one fixed
 * reference zone, so a day is a half-open interval of 86400 seconds.
 */
module Calendar {
  const SecondsPerDay: int := 86400

  /** The day an instant falls on (Dafny's `/` rounds down for a positive divisor). */
  function DayOf(t: int): (d: int)
    ensures d * SecondsPerDay <= t < (d + 1) * SecondsPerDay
  {
    t / SecondsPerDay
  }

  /** `Calendar.current.isDate(a, inSameDayAs: b)`. */
  predicate SameDay(a: int, b: int)
  {
    DayOf(a) == DayOf(b)
  }

  /** Two instants on one day are less than a day apart, and the last second of a day
      and the first second of the next are on different days. */
  lemma SameDayBoundary(t: int)
    ensures SameDay(t, t) && !SameDay(t, t + SecondsPerDay)
    ensures t % SecondsPerDay == SecondsPerDay - 1 ==> !SameDay(t, t + 1)
    ensures forall u :: SameDay(t, u) ==> -SecondsPerDay < u - t < SecondsPerDay
  {
  }
}
