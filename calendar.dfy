/** Calendar dates as the clock produces them.  Clock readings themselves are passed in as integers. */
module Calendar {
  datatype Date = Date(year: nat, month: nat, day: nat)

  /** A date with a four-digit year; the day is checked only against 31. */
  predicate ValidDate(d: Date)
  {
    1000 <= d.year <= 9999 && 1 <= d.month <= 12 && 1 <= d.day <= 31
  }

  /** Chronological order of dates: year, then month, then day. */
  predicate DateLe(a: Date, b: Date)
  {
    a.year < b.year || (a.year == b.year && (a.month < b.month || (a.month == b.month && a.day <= b.day)))
  }
}
